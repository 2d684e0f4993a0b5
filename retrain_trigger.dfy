/**
 * The retraining engine object (`RetrainTrigger` in src/models/retrain_trigger.py): its
 * configuration dict and state file, and the operations that read and rewrite them. The clock,
 * the data fingerprint, the model score and the training job are inputs to each operation.
 */
module Engine {
  import opened Wrappers
  import opened Text
  import opened EngineState
  import opened Policy

  /**
   * What running the training job produced: an exception raised before or while launching it
   * (MLflow setup, process launch), or the job's exit status with its captured stderr.
   */
  datatype JobOutcome = Raised(message: string) | Exited(returnCode: int, stderr: string)

  /** The dict `trigger_retrain` returns; its display `message` is not modelled. */
  datatype RetrainResult =
    | Succeeded(reason: string, startTime: Time, durationSeconds: real, newPerformance: Option<real>)
    | Failed(reason: string, startTime: Time, error: string)

  /** The record a successful retrain writes: all five keys, both times being the retrain's start. */
  function AfterRetrain(s: RetrainState, start: Time, dataHash: Hash, newPerformance: Option<real>): (r: RetrainState)
    ensures r.retrainCount == s.retrainCount + 1
    ensures r.lastRetrainTime == Some(start) && r.lastCheckTime == Some(start)
    ensures r.lastDataHash == Some(dataHash) && r.lastPerformance == newPerformance
  {
    MergeState(s, StateUpdate(Put(Some(start)), Put(Some(dataHash)), Put(newPerformance),
                              Put(s.retrainCount + 1), Put(Some(start))))
  }

  /** The record after `check_and_retrain` stamps the check time: nothing else changes. */
  function AfterCheck(s: RetrainState, checkTime: Time): (r: RetrainState)
    ensures r.lastCheckTime == Some(checkTime)
    ensures r.(lastCheckTime := s.lastCheckTime) == s
  {
    MergeState(s, StateUpdate(Keep, Keep, Keep, Keep, Put(Some(checkTime))))
  }

  /**
   * `trigger_retrain` as a function of the stored record: the result dict and the record
   * afterwards. `start` and `finish` are the two clock readings, `newPerformance` the score read
   * after the job, `currentHash` the fingerprint read after the job.
   */
  function Retrain(s: RetrainState, reason: string, start: Time, finish: Time, job: JobOutcome,
                   newPerformance: Option<real>, currentHash: Hash): (out: (RetrainResult, RetrainState))
    ensures out.0.reason == reason && out.0.startTime == start
    ensures out.0.Succeeded? <==> job.Exited? && job.returnCode == 0
    ensures out.0.Failed? ==> out.1 == s
    ensures job.Raised? ==> out.0.error == job.message
    ensures job.Exited? && job.returnCode != 0 ==> out.0.error == "Training failed: " + job.stderr
    ensures out.0.Succeeded? ==>
      && out.1 == AfterRetrain(s, start, currentHash, newPerformance)
      && out.0.newPerformance == newPerformance
      && out.0.durationSeconds == (finish - start) as real
  {
    match job
    case Raised(message) => (Failed(reason, start, message), s)
    case Exited(code, stderr) =>
      if code != 0 then (Failed(reason, start, "Training failed: " + stderr), s)
      else
        var (_, h) := HasDataChanged(s, currentHash);
        var s' := MergeState(s, StateUpdate(Put(Some(start)), Put(Some(h)), Put(newPerformance),
                                            Put(s.retrainCount + 1), Put(Some(start))));
        (Succeeded(reason, start, (finish - start) as real, newPerformance), s')
  }

  /** A job that exits non-zero yields a failure whose error text contains the captured stderr, and leaves the record alone. */
  lemma FailedJobReportsStderr(s: RetrainState, reason: string, start: Time, finish: Time, code: int, stderr: string,
                               newPerformance: Option<real>, currentHash: Hash)
    requires code != 0
    ensures var out := Retrain(s, reason, start, finish, Exited(code, stderr), newPerformance, currentHash);
      out.0.Failed? && Contains(out.0.error, stderr) && out.1 == s
  {
    ContainsSuffix("Training failed: ", stderr);
  }

  /** After a successful retrain, the fingerprint it read no longer counts as a data change. */
  lemma RetrainedDataIsUnchanged(s: RetrainState, start: Time, dataHash: Hash, newPerformance: Option<real>)
    ensures !HasDataChanged(AfterRetrain(s, start, dataHash, newPerformance), dataHash).0
  {
  }

  /**
   * `check_and_retrain` as a function of the configuration and the stored record: stamp the
   * check time, decide on the stamped record, and retrain with an "Auto-trigger: " reason when the
   * verdict is positive.
   */
  function CheckAndRetrainOutcome(c: Config, s: RetrainState, checkTime: Time, now: Time, currentHash: Hash,
                                  performance: Option<real>, f: Formats, start: Time, finish: Time,
                                  job: JobOutcome, newPerformance: Option<real>, retrainHash: Hash)
    : (out: (Option<RetrainResult>, RetrainState))
    ensures var v := Decide(c, AfterCheck(s, checkTime), now, currentHash, performance);
      && (out.0.Some? <==> v.ShouldRetrain())
      && (out.0.Some? ==> out.0.value.reason == "Auto-trigger: " + ReasonText(v, f))
    ensures var v := Decide(c, AfterCheck(s, checkTime), now, currentHash, performance);
      out.0.Some? ==> (out.0.value, out.1) == Retrain(AfterCheck(s, checkTime), "Auto-trigger: " + ReasonText(v, f),
                                                     start, finish, job, newPerformance, retrainHash)
    ensures out.0.None? || out.0.value.Failed? ==> out.1 == AfterCheck(s, checkTime)
    ensures out.1.retrainCount == s.retrainCount + (if out.0.Some? && out.0.value.Succeeded? then 1 else 0)
  {
    var checked := AfterCheck(s, checkTime);
    var v := Decide(c, checked, now, currentHash, performance);
    if v.ShouldRetrain() then
      var (r, s') := Retrain(checked, "Auto-trigger: " + ReasonText(v, f), start, finish, job, newPerformance, retrainHash);
      (Some(r), s')
    else
      (None, checked)
  }

  /**
   * Automatic retrains respect the cooldown: when `check_and_retrain` retrains successfully and the
   * job starts no earlier than the decision's clock reading, at least `max_retrain_frequency`
   * separates the new recorded retrain time from the one stored before.
   */
  lemma AutoRetrainsAreSpaced(c: Config, s: RetrainState, checkTime: Time, now: Time, currentHash: Hash,
                              performance: Option<real>, f: Formats, start: Time, finish: Time,
                              job: JobOutcome, newPerformance: Option<real>, retrainHash: Hash)
    requires now <= start
    requires s.lastRetrainTime.Some?
    requires var out := CheckAndRetrainOutcome(c, s, checkTime, now, currentHash, performance, f, start, finish,
                                               job, newPerformance, retrainHash);
      out.0.Some? && out.0.value.Succeeded?
    ensures var out := CheckAndRetrainOutcome(c, s, checkTime, now, currentHash, performance, f, start, finish,
                                              job, newPerformance, retrainHash);
      && out.1.lastRetrainTime == Some(start)
      && ((start - s.lastRetrainTime.value) as real) >= c.maxRetrainFrequency
  {
  }

  /** The dict `get_retrain_status` returns. */
  datatype RetrainStatus = RetrainStatus(
    autoRetrainEnabled: bool,
    shouldRetrain: bool,
    retrainReason: string,
    currentPerformance: Option<real>,
    lastRetrainTime: Option<Time>,
    retrainCount: int,
    lastCheckTime: Option<Time>,
    config: Config,
    dataChanged: bool)

  /** The status report, given the readings of its own calls to the oracles and the clock. */
  function Status(c: Config, s: RetrainState, now: Time, currentHash: Hash, performance: Option<real>, f: Formats,
                  currentPerformance: Option<real>, statusHash: Hash): (st: RetrainStatus)
    ensures st.autoRetrainEnabled == c.autoRetrainEnabled && st.config == c
    ensures st.shouldRetrain == Decide(c, s, now, currentHash, performance).ShouldRetrain()
    ensures st.retrainReason == ReasonText(Decide(c, s, now, currentHash, performance), f)
    ensures st.currentPerformance == currentPerformance
    ensures st.lastRetrainTime == s.lastRetrainTime && st.lastCheckTime == s.lastCheckTime
    ensures st.retrainCount == s.retrainCount
    ensures st.dataChanged <==> s.lastDataHash != Some(statusHash)
  {
    var v := Decide(c, s, now, currentHash, performance);
    RetrainStatus(c.autoRetrainEnabled, v.ShouldRetrain(), ReasonText(v, f), currentPerformance,
                  s.lastRetrainTime, s.retrainCount, s.lastCheckTime, c, HasDataChanged(s, statusHash).0)
  }

  /** A fresh engine reports changed data even with no data file (the "" fingerprint), and no retrain yet. */
  lemma FreshStatus(now: Time, currentHash: Hash, performance: Option<real>, f: Formats, statusHash: Hash)
    ensures var st := Status(DefaultConfig, InitialState, now, currentHash, performance, f, None, statusHash);
      && st.dataChanged
      && st.currentPerformance.None?
      && st.retrainCount == 0
      && st.shouldRetrain
  {
  }

  class RetrainTrigger {
    var config: Config
    /** The state file: `None` while it does not exist on disk. */
    var stateFile: Option<RetrainState>

    /** The state file exists, as `ensure_state_file` in the constructor guarantees. */
    ghost predicate Valid()
      reads this
    {
      stateFile.Some?
    }

    /** `__init__`: default configuration, then `ensure_state_file` on the file found on disk. */
    constructor (existing: Option<RetrainState>)
      ensures Valid()
      ensures config == DefaultConfig
      ensures stateFile == Some(existing.GetOr(InitialState))
    {
      config := DefaultConfig;
      stateFile := existing;
      new;
      EnsureStateFile();
    }

    /** `ensure_state_file`: writes the initial record only when there is no state file. */
    method EnsureStateFile()
      modifies this`stateFile
      ensures Valid()
      ensures old(stateFile).Some? ==> stateFile == old(stateFile)
      ensures old(stateFile).None? ==> stateFile == Some(InitialState)
    {
      if stateFile.None? {
        stateFile := Some(InitialState);
      }
    }

    /** `get_state`: the record in the state file. */
    function GetState(): (s: RetrainState)
      reads this
      requires Valid()
      ensures stateFile == Some(s)
    {
      stateFile.value
    }

    /** `update_state`: read the record, merge the update into it, write it back. */
    method UpdateState(updates: StateUpdate)
      requires Valid()
      modifies this`stateFile
      ensures Valid()
      ensures GetState() == MergeState(old(GetState()), updates)
    {
      var state := GetState();
      state := MergeState(state, updates);
      stateFile := Some(state);
    }

    /** `should_retrain` on the stored record: the verdict and its reason text. */
    method ShouldRetrain(now: Time, currentHash: Hash, performance: Option<real>, f: Formats)
      returns (should: bool, reason: string)
      requires Valid()
      ensures var v := Decide(config, GetState(), now, currentHash, performance);
        should == v.ShouldRetrain() && reason == ReasonText(v, f)
      ensures !config.autoRetrainEnabled ==> !should && reason == DisabledText
    {
      var state := GetState();
      var v := Decide(config, state, now, currentHash, performance);
      should := v.ShouldRetrain();
      reason := ReasonText(v, f);
    }

    /** `trigger_retrain`: run the job and, only when it exits with 0, rewrite the record. */
    method TriggerRetrain(reason: string, start: Time, finish: Time, job: JobOutcome,
                          newPerformance: Option<real>, currentHash: Hash)
      returns (r: RetrainResult)
      requires Valid()
      modifies this`stateFile
      ensures Valid()
      ensures (r, GetState()) == Retrain(old(GetState()), reason, start, finish, job, newPerformance, currentHash)
    {
      match job
      case Raised(message) =>
        r := Failed(reason, start, message);
      case Exited(code, stderr) =>
        if code != 0 {
          r := Failed(reason, start, "Training failed: " + stderr);
        } else {
          var (_, h) := HasDataChanged(GetState(), currentHash);
          var count := GetState().retrainCount + 1;
          UpdateState(StateUpdate(Put(Some(start)), Put(Some(h)), Put(newPerformance), Put(count), Put(Some(start))));
          r := Succeeded(reason, start, (finish - start) as real, newPerformance);
        }
    }

    /** `check_and_retrain`: stamp the check time, decide, and retrain when the verdict is positive. */
    method CheckAndRetrain(checkTime: Time, now: Time, currentHash: Hash, performance: Option<real>, f: Formats,
                           start: Time, finish: Time, job: JobOutcome, newPerformance: Option<real>, retrainHash: Hash)
      returns (r: Option<RetrainResult>)
      requires Valid()
      modifies this`stateFile
      ensures Valid()
      ensures (r, GetState()) == CheckAndRetrainOutcome(config, old(GetState()), checkTime, now, currentHash,
                                                        performance, f, start, finish, job, newPerformance, retrainHash)
    {
      UpdateState(StateUpdate(Keep, Keep, Keep, Keep, Put(Some(checkTime))));
      var should, reason := ShouldRetrain(now, currentHash, performance, f);
      if should {
        var result := TriggerRetrain("Auto-trigger: " + reason, start, finish, job, newPerformance, retrainHash);
        r := Some(result);
      } else {
        r := None;
      }
    }

    /** `get_retrain_status`: reads the record and the configuration, changes nothing. */
    method GetRetrainStatus(now: Time, currentHash: Hash, performance: Option<real>, f: Formats,
                            currentPerformance: Option<real>, statusHash: Hash)
      returns (st: RetrainStatus)
      requires Valid()
      ensures st == Status(config, GetState(), now, currentHash, performance, f, currentPerformance, statusHash)
    {
      var state := GetState();
      var should, reason := ShouldRetrain(now, currentHash, performance, f);
      var (changed, _) := HasDataChanged(state, statusHash);
      st := RetrainStatus(config.autoRetrainEnabled, should, reason, currentPerformance,
                          state.lastRetrainTime, state.retrainCount, state.lastCheckTime, config, changed);
    }

    /** `update_config`: merge the supplied keys into the configuration and return it. */
    method UpdateConfig(newConfig: ConfigUpdate) returns (message: string, updated: Config)
      modifies this`config
      ensures config == MergeConfig(old(config), newConfig)
      ensures message == "Configuration updated" && updated == config
    {
      config := MergeConfig(config, newConfig);
      message := "Configuration updated";
      updated := config;
    }
  }

  /** The command line of `main`: `argv[0]` is the program, `argv[1]` the command. */
  datatype CliCommand = CheckCommand | TriggerCommand(reason: string) | StatusCommand | UsageCommand

  /** The dispatch of `main`, with the trigger reason assembled from the remaining arguments. */
  function ParseCli(argv: seq<string>): (cmd: CliCommand)
    ensures |argv| <= 1 ==> cmd == UsageCommand
    ensures cmd == CheckCommand <==> |argv| > 1 && argv[1] == "check"
    ensures cmd == StatusCommand <==> |argv| > 1 && argv[1] == "status"
    ensures cmd.TriggerCommand? <==> |argv| > 1 && argv[1] == "trigger"
    ensures cmd.TriggerCommand? && |argv| == 2 ==> cmd.reason == "Manual CLI trigger"
    ensures cmd.TriggerCommand? && |argv| == 3 ==> cmd.reason == argv[2]
    ensures cmd.TriggerCommand? && |argv| > 2 ==> cmd.reason == Join(argv[2..], " ")
  {
    if |argv| <= 1 then UsageCommand
    else if argv[1] == "check" then CheckCommand
    else if argv[1] == "trigger" then
      TriggerCommand(if |argv| > 2 then Join(argv[2..], " ") else "Manual CLI trigger")
    else if argv[1] == "status" then StatusCommand
    else UsageCommand
  }

  /** Every word after `trigger` occurs in the reason. */
  lemma CliReasonWords(argv: seq<string>, k: nat)
    requires |argv| > 3 && argv[1] == "trigger" && 2 <= k < |argv|
    ensures Contains(ParseCli(argv).reason, argv[k])
  {
    JoinContainsPart(argv[2..], " ", k - 2);
  }
}

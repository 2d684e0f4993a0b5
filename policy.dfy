/**
 * The retraining decision of `RetrainTrigger.should_retrain`, with the stored state, the clock,
 * the current data fingerprint and the current model score given as inputs.
 */
module Policy {
  import opened Wrappers
  import opened Text
  import opened EngineState

  /** One reason collected into the `reasons` list. */
  datatype Trigger =
    | DataChanged
    | BelowThreshold(current: real, threshold: real)
    | Degraded(last: real, current: real)

  /** The outcome of `should_retrain`: one of the two early returns, or the collected reasons. */
  datatype Verdict = Disabled | TooSoon(lastRetrain: Time) | Assessed(triggers: seq<Trigger>) {

    /** The boolean half of the returned pair: true exactly when some reason was collected. */
    predicate ShouldRetrain(): (b: bool)
      ensures Disabled? || TooSoon? ==> !b
      ensures Assessed? ==> (b <==> triggers != [])
    {
      Assessed? && |triggers| > 0
    }
  }

  /** Python truthiness of the stored score: `None` and `0.0` are both false. */
  predicate Truthy(p: Option<real>): (b: bool)
    ensures p.None? || p == Some(0.0) ==> !b
    ensures p.Some? && p.value != 0.0 ==> b
  {
    p.Some? && p.value != 0.0
  }

  /**
   * The cooldown test. A stored retrain time is an ISO timestamp, never the empty string, so its
   * truthiness is its presence.
   */
  predicate CoolingDown(c: Config, s: RetrainState, now: Time): (b: bool)
    ensures s.lastRetrainTime.None? ==> !b
    ensures b <==> s.lastRetrainTime.Some? && (now as real) < (s.lastRetrainTime.value as real) + c.maxRetrainFrequency
  {
    s.lastRetrainTime.Some? && ((now - s.lastRetrainTime.value) as real) < c.maxRetrainFrequency
  }

  /**
   * The performance part of `should_retrain`: the below-threshold check and, only when it does not
   * fire, the degradation check against a truthy stored score.
   */
  function PerformanceTrigger(c: Config, last: Option<real>, current: Option<real>): (t: Option<Trigger>)
    ensures current.None? ==> t.None?
    ensures t.Some? && t.value.BelowThreshold? <==> current.Some? && current.value < c.minPerformanceThreshold
    ensures t.Some? && t.value.Degraded? <==>
      && current.Some?
      && current.value >= c.minPerformanceThreshold
      && Truthy(last)
      && last.value - current.value > c.performanceDegradationThreshold
    ensures t.Some? ==> !t.value.DataChanged?
    ensures t.Some? && t.value.BelowThreshold? ==> t.value == BelowThreshold(current.value, c.minPerformanceThreshold)
    ensures t.Some? && t.value.Degraded? ==> t.value == Degraded(last.value, current.value)
  {
    match current
    case None => None
    case Some(cur) =>
      if cur < c.minPerformanceThreshold then Some(BelowThreshold(cur, c.minPerformanceThreshold))
      else if Truthy(last) && last.value - cur > c.performanceDegradationThreshold then Some(Degraded(last.value, cur))
      else None
  }

  /** `should_retrain`: the disabled switch, then the cooldown, then data change and performance. */
  function Decide(c: Config, s: RetrainState, now: Time, currentHash: Hash, performance: Option<real>): (v: Verdict)
    ensures !c.autoRetrainEnabled ==> v == Disabled
    ensures c.autoRetrainEnabled && CoolingDown(c, s, now) ==> v == TooSoon(s.lastRetrainTime.value)
    ensures v.Assessed? <==> c.autoRetrainEnabled && !CoolingDown(c, s, now)
    ensures v.Assessed? ==> (DataChanged in v.triggers <==> HasDataChanged(s, currentHash).0)
    ensures v.Assessed? ==> forall i :: 0 < i < |v.triggers| ==> !v.triggers[i].DataChanged?
    ensures v.Assessed? ==> forall i :: 0 <= i < |v.triggers| - 1 ==> v.triggers[i] == DataChanged
    ensures v.Assessed? ==> forall t :: t in v.triggers && !t.DataChanged? ==>
      PerformanceTrigger(c, s.lastPerformance, performance) == Some(t)
    ensures v.Assessed? && PerformanceTrigger(c, s.lastPerformance, performance).Some? ==>
      PerformanceTrigger(c, s.lastPerformance, performance).value in v.triggers
    ensures v.ShouldRetrain() <==>
      && c.autoRetrainEnabled
      && !CoolingDown(c, s, now)
      && (HasDataChanged(s, currentHash).0 || PerformanceTrigger(c, s.lastPerformance, performance).Some?)
  {
    if !c.autoRetrainEnabled then Disabled
    else if CoolingDown(c, s, now) then TooSoon(s.lastRetrainTime.value)
    else
      var (changed, _) := HasDataChanged(s, currentHash);
      var dataReasons := if changed then [DataChanged] else [];
      var performanceReasons :=
        match PerformanceTrigger(c, s.lastPerformance, performance)
        case Some(t) => [t]
        case None => [];
      Assessed(dataReasons + performanceReasons)
  }

  /** With the switch off, nothing else is consulted: every state, clock, fingerprint and score gives `Disabled`. */
  lemma DisabledShortCircuits(c: Config, s1: RetrainState, s2: RetrainState, now1: Time, now2: Time,
                              h1: Hash, h2: Hash, p1: Option<real>, p2: Option<real>)
    requires !c.autoRetrainEnabled
    ensures Decide(c, s1, now1, h1, p1) == Decide(c, s2, now2, h2, p2) == Disabled
  {
  }

  /**
   * The cooldown dominates: while cooling down, the verdict is the same whatever the data
   * fingerprint and the score, even a score below the threshold, and it is negative.
   */
  lemma CooldownDominates(c: Config, s: RetrainState, now: Time, h1: Hash, h2: Hash, p1: Option<real>, p2: Option<real>)
    requires c.autoRetrainEnabled && CoolingDown(c, s, now)
    ensures Decide(c, s, now, h1, p1) == Decide(c, s, now, h2, p2)
    ensures !Decide(c, s, now, h1, p1).ShouldRetrain()
  {
  }

  /** How Python renders the numbers and timestamps inside reason texts (`:.3f`, `str(float)`, `str(datetime)`). */
  datatype Formats = Formats(stamp: Time -> string, fixed3: real -> string, plain: real -> string)

  /** The text of one reason; each kind has its own fixed opening words. */
  function TriggerText(t: Trigger, f: Formats): (r: string)
    ensures t.DataChanged? <==> r == "Data has changed"
    ensures t.BelowThreshold? ==> "Performance below threshold (" <= r
    ensures t.BelowThreshold? ==> Contains(r, f.fixed3(t.current)) && Contains(r, f.plain(t.threshold))
    ensures t.Degraded? ==> "Performance degraded (" <= r
    ensures t.Degraded? ==> Contains(r, f.fixed3(t.last)) && Contains(r, f.fixed3(t.current))
  {
    match t
    case DataChanged => "Data has changed"
    case BelowThreshold(cur, threshold) =>
      var front := "Performance below threshold (";
      var r := front + f.fixed3(cur) + " < " + f.plain(threshold) + ")";
      ContainsInMiddle(front, f.fixed3(cur), " < " + f.plain(threshold) + ")");
      assert r == front + f.fixed3(cur) + (" < " + f.plain(threshold) + ")");
      ContainsInMiddle(front + f.fixed3(cur) + " < ", f.plain(threshold), ")");
      r
    case Degraded(last, cur) =>
      var front := "Performance degraded (";
      var r := front + f.fixed3(last) + " -> " + f.fixed3(cur) + ")";
      ContainsInMiddle(front, f.fixed3(last), " -> " + f.fixed3(cur) + ")");
      assert r == front + f.fixed3(last) + (" -> " + f.fixed3(cur) + ")");
      ContainsInMiddle(front + f.fixed3(last) + " -> ", f.fixed3(cur), ")");
      r
  }

  /** The texts of a list of reasons, in the same order. */
  function TriggerTexts(ts: seq<Trigger>, f: Formats): (r: seq<string>)
    ensures |r| == |ts|
    ensures forall i :: 0 <= i < |ts| ==> r[i] == TriggerText(ts[i], f)
  {
    if |ts| == 0 then [] else [TriggerText(ts[0], f)] + TriggerTexts(ts[1..], f)
  }

  const TooSoonPhrase := "Too soon since last retrain"
  const DisabledText := "Auto-retrain disabled"
  const NoTriggersText := "No retrain triggers"

  /** The string half of the returned pair: the reasons joined with "; ", or the early-return text. */
  function ReasonText(v: Verdict, f: Formats): (r: string)
    ensures v.Disabled? ==> r == DisabledText
    ensures v.TooSoon? ==> r == TooSoonPhrase + " (" + f.stamp(v.lastRetrain) + ")"
    ensures v.Assessed? && |v.triggers| == 0 ==> r == NoTriggersText
    ensures v.Assessed? && |v.triggers| == 1 ==> r == TriggerText(v.triggers[0], f)
  {
    match v
    case Disabled => DisabledText
    case TooSoon(t) => TooSoonPhrase + " (" + f.stamp(t) + ")"
    case Assessed(ts) => if |ts| == 0 then NoTriggersText else Join(TriggerTexts(ts, f), "; ")
  }

  /**
   * Reason order: when the data changed and a performance reason fired too, the text is the data
   * reason, "; ", then the performance reason; a single reason is its own text.
   */
  lemma ReasonOrder(c: Config, s: RetrainState, now: Time, h: Hash, p: Option<real>, f: Formats)
    requires c.autoRetrainEnabled && !CoolingDown(c, s, now)
    ensures var t := PerformanceTrigger(c, s.lastPerformance, p);
      var text := ReasonText(Decide(c, s, now, h, p), f);
      && (HasDataChanged(s, h).0 && t.Some? ==> text == "Data has changed; " + TriggerText(t.value, f))
      && (HasDataChanged(s, h).0 && t.None? ==> text == "Data has changed")
      && (!HasDataChanged(s, h).0 && t.Some? ==> text == TriggerText(t.value, f))
      && (!HasDataChanged(s, h).0 && t.None? ==> text == NoTriggersText)
  {
    var v := Decide(c, s, now, h, p);
    var t := PerformanceTrigger(c, s.lastPerformance, p);
    if HasDataChanged(s, h).0 && t.Some? {
      assert v.triggers == [DataChanged, t.value];
      assert TriggerTexts(v.triggers, f) == ["Data has changed", TriggerText(t.value, f)];
      assert Join(["Data has changed", TriggerText(t.value, f)], "; ")
        == "Data has changed" + "; " + Join([TriggerText(t.value, f)], "; ");
    } else if HasDataChanged(s, h).0 {
      assert v.triggers == [DataChanged];
    } else if t.Some? {
      assert v.triggers == [t.value];
    }
  }

  /**
   * Among negative verdicts, the text contains "Too soon since last retrain" exactly for the
   * cooldown: the other two negative texts are fixed and shorter than that phrase.
   */
  lemma TooSoonTextIdentifiesCooldown(v: Verdict, f: Formats)
    ensures !v.ShouldRetrain() && Contains(ReasonText(v, f), TooSoonPhrase) <==> v.TooSoon?
  {
    match v
    case Disabled => ShorterDoesNotContain(DisabledText, TooSoonPhrase);
    case TooSoon(t) =>
      ContainsPrefix(TooSoonPhrase, " (" + f.stamp(t) + ")");
      assert ReasonText(v, f) == TooSoonPhrase + (" (" + f.stamp(t) + ")");
    case Assessed(ts) =>
      if |ts| == 0 {
        ShorterDoesNotContain(NoTriggersText, TooSoonPhrase);
      }
  }

  /** The scenario of a retrain recorded seven hours ago and a score of 0.4 against the defaults. */
  lemma BelowThresholdAfterCooldown(s: RetrainState, now: Time, h: Hash)
    requires s.lastRetrainTime == Some(now - 7 * 3600)
    ensures Decide(DefaultConfig, s, now, h, Some(0.4)).ShouldRetrain()
    ensures BelowThreshold(0.4, 0.5) in Decide(DefaultConfig, s, now, h, Some(0.4)).triggers
  {
    assert PerformanceTrigger(DefaultConfig, s.lastPerformance, Some(0.4)) == Some(BelowThreshold(0.4, 0.5));
  }

  /**
   * A retrain recorded less than six hours ago (just now, or one hour ago) blocks the defaults'
   * six-hour cooldown, whatever the fingerprint and the score.
   */
  lemma RecentRetrainIsTooSoon(s: RetrainState, t: Time, now: Time, h: Hash, p: Option<real>)
    requires s.lastRetrainTime == Some(t) && 0 <= now - t < 6 * 3600
    ensures Decide(DefaultConfig, s, now, h, p) == TooSoon(t)
  {
  }
}

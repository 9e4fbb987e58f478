/** The water-level card: its status bands and the clamped level its animation moves to. */
module WaterLevel {
  import opened Wrappers

  datatype LevelStatus = Unknown | CriticalLow | CriticalHigh | WarningLow | WarningHigh | Normal

  /** The default alert thresholds, as ratios of a full pond. */
  const DefaultAlertLow: real := 0.3
  const DefaultAlertHigh: real := 0.9

  /** The status of a level: the guards are tried low before high, critical before warning. */
  function Status(level: Option<real>, alertLow: real, alertHigh: real): (s: LevelStatus)
    ensures s == Unknown <==> level.None?
    ensures s == CriticalLow <==> level.Some? && level.value <= alertLow
    ensures s == CriticalHigh <==> level.Some? && alertLow < level.value && alertHigh <= level.value
    ensures s == WarningLow <==> level.Some? && alertLow < level.value < alertHigh && level.value <= alertLow + 0.1
    ensures s == WarningHigh <==>
      level.Some? && alertLow + 0.1 < level.value < alertHigh && alertHigh - 0.1 <= level.value
  {
    if level.None? then Unknown
    else if level.value <= alertLow then CriticalLow
    else if level.value >= alertHigh then CriticalHigh
    else if level.value <= alertLow + 0.1 then WarningLow
    else if level.value >= alertHigh - 0.1 then WarningHigh
    else Normal
  }

  /** With the default thresholds the bands are: up to 0.3, up to 0.4, below 0.8, below 0.9, and the rest. */
  lemma DefaultBands(level: real)
    ensures var s := Status(Some(level), DefaultAlertLow, DefaultAlertHigh);
      && (level <= 0.3 <==> s == CriticalLow)
      && (0.3 < level <= 0.4 <==> s == WarningLow)
      && (0.4 < level < 0.8 <==> s == Normal)
      && (0.8 <= level < 0.9 <==> s == WarningHigh)
      && (0.9 <= level <==> s == CriticalHigh)
  {
  }

  /** When the two warning margins overlap, the low warning wins. */
  lemma WarningLowFirst(level: real, alertLow: real, alertHigh: real)
    requires alertLow < level < alertHigh
    requires level <= alertLow + 0.1 && alertHigh - 0.1 <= level
    ensures Status(Some(level), alertLow, alertHigh) == WarningLow
  {
  }

  /** The level the animation moves to: the reading clamped to `[0, 1]`. */
  function AnimationTarget(level: real): (r: real)
    ensures 0.0 <= r <= 1.0
    ensures 0.0 <= level <= 1.0 ==> r == level
    ensures level < 0.0 ==> r == 0.0
    ensures level > 1.0 ==> r == 1.0
  {
    var capped := if level < 1.0 then level else 1.0;
    if capped > 0.0 then capped else 0.0
  }

  /** The target never moves against the reading, and clamping twice changes nothing. */
  lemma AnimationTargetMonotone(a: real, b: real)
    requires a <= b
    ensures AnimationTarget(a) <= AnimationTarget(b)
    ensures AnimationTarget(AnimationTarget(a)) == AnimationTarget(a)
  {
  }
}

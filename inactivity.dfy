/**
 * The inactivity gate (`is_inactive`): when enabled, the scraper sleeps during a configured
 * `HH:MM`-`HH:MM` window of local time, which may run over midnight. The caller supplies the
 * current local time of day in place of the wall clock, and the defaults for missing settings.
 */
module Inactivity {
  import opened Common
  import opened Timestamps

  /** The three inactivity settings as `config.get` finds them: None where the key is absent. */
  datatype Settings = Settings(enabled: Option<bool>, start: Option<string>, end: Option<string>)

  /** The values `config.get` falls back to. */
  datatype Defaults = Defaults(enabled: bool, start: string, end: string)

  /** `datetime.now().time()`: a time of day to the microsecond. */
  datatype TimeOfDay = TimeOfDay(hour: nat, minute: nat, second: nat, micro: nat)

  predicate ValidTime(t: TimeOfDay)
  {
    t.hour < 24 && t.minute < 60 && t.second < 60 && t.micro < 1_000_000
  }

  const MicrosPerDay: int := 86_400_000_000

  /** Microseconds since midnight; on valid times it orders them as `time` comparison does. */
  function Micros(t: TimeOfDay): (r: int)
    ensures ValidTime(t) ==> 0 <= r < MicrosPerDay
  {
    ((t.hour * 60 + t.minute) * 60 + t.second) * 1_000_000 + t.micro
  }

  /** A clock time as the start of its minute. */
  function ClockMicros(c: Clock): (r: int)
    ensures ValidClock(c) ==> 0 <= r < MicrosPerDay
  {
    Micros(TimeOfDay(c.hour, c.minute, 0, 0))
  }

  function Enabled(config: Settings, defaults: Defaults): bool
  {
    config.enabled.GetOr(defaults.enabled)
  }

  /** Both window ends, where both parse as `%H:%M`. */
  function Window(config: Settings, defaults: Defaults): (r: Option<(Clock, Clock)>)
    ensures r.Some? ==> ValidClock(r.value.0) && ValidClock(r.value.1)
  {
    var start := ParseClock(config.start.GetOr(defaults.start));
    var end := ParseClock(config.end.GetOr(defaults.end));
    if start.Some? && end.Some? then Some((start.value, end.value)) else None
  }

  /** `is_inactive`: False when disabled or when either end does not parse (the `ValueError`
      path); otherwise the overnight test when start is after end, else the daytime test. */
  function IsInactive(config: Settings, defaults: Defaults, now: TimeOfDay): (r: bool)
    ensures r ==> Enabled(config, defaults) && Window(config, defaults).Some?
  {
    if !Enabled(config, defaults) then false
    else
      var window := Window(config, defaults);
      if window.None? then false
      else
        var start := ClockMicros(window.value.0);
        var end := ClockMicros(window.value.1);
        var current := Micros(now);
        if start > end then current >= start || current < end
        else start <= current < end
  }

  // ---------------------------------------------------------------------------------------
  // Reference: a window on the 24-hour circle
  // ---------------------------------------------------------------------------------------

  /** Time from `from` forward to `to`, going round midnight when needed. */
  function Elapsed(from: int, to: int): (r: int)
    ensures 0 <= r < MicrosPerDay
  {
    (to - from) % MicrosPerDay
  }

  /** `t` lies in the half-open arc that starts at `start` and runs forward to `end`. */
  predicate InArc(t: int, start: int, end: int)
  {
    Elapsed(start, t) < Elapsed(start, end)
  }

  lemma ElapsedValue(from: int, to: int)
    requires 0 <= from < MicrosPerDay && 0 <= to < MicrosPerDay
    ensures Elapsed(from, to) == if to >= from then to - from else to - from + MicrosPerDay
  {
    var d := to - from;
    if d < 0 {
      assert (d + MicrosPerDay) % MicrosPerDay == d + MicrosPerDay;
    }
  }

  /** On a valid time the gate is inactive exactly when it is enabled, both ends parse, and now
      lies in the arc that runs forward from start to end. */
  lemma InactiveIsInArc(config: Settings, defaults: Defaults, now: TimeOfDay)
    requires ValidTime(now)
    ensures IsInactive(config, defaults, now) <==>
      && Enabled(config, defaults)
      && Window(config, defaults).Some?
      && InArc(Micros(now), ClockMicros(Window(config, defaults).value.0),
               ClockMicros(Window(config, defaults).value.1))
  {
    var window := Window(config, defaults);
    if Enabled(config, defaults) && window.Some? {
      var start := ClockMicros(window.value.0);
      var end := ClockMicros(window.value.1);
      var current := Micros(now);
      ElapsedValue(start, current);
      ElapsedValue(start, end);
    }
  }

  /** An arc with two distinct ends and its reverse split the day between them. */
  lemma ArcsSplitTheDay(t: int, start: int, end: int)
    requires 0 <= t < MicrosPerDay && 0 <= start < MicrosPerDay && 0 <= end < MicrosPerDay
    requires start != end
    ensures InArc(t, start, end) <==> !InArc(t, end, start)
  {
    ElapsedValue(start, t);
    ElapsedValue(start, end);
    ElapsedValue(end, t);
    ElapsedValue(end, start);
  }

  /** A disabled gate is never inactive. */
  lemma DisabledIsActive(config: Settings, defaults: Defaults, now: TimeOfDay)
    requires !Enabled(config, defaults)
    ensures !IsInactive(config, defaults, now)
  {
  }

  /** A window end that does not parse as `HH:MM` switches the gate off. */
  lemma UnparseableIsActive(config: Settings, defaults: Defaults, now: TimeOfDay)
    requires ParseClock(config.start.GetOr(defaults.start)).None?
          || ParseClock(config.end.GetOr(defaults.end)).None?
    ensures !IsInactive(config, defaults, now)
  {
  }

  /** A window whose ends are the same clock time is empty. */
  lemma EqualEndsNeverInactive(config: Settings, defaults: Defaults, now: TimeOfDay)
    requires config.start.GetOr(defaults.start) == config.end.GetOr(defaults.end)
    ensures !IsInactive(config, defaults, now)
  {
  }

  /** Start after end: inactive from start to midnight and from midnight up to end. */
  lemma OvernightWindow(config: Settings, defaults: Defaults, now: TimeOfDay)
    requires Enabled(config, defaults) && Window(config, defaults).Some?
    requires ClockMicros(Window(config, defaults).value.0) > ClockMicros(Window(config, defaults).value.1)
    ensures IsInactive(config, defaults, now) <==>
      Micros(now) >= ClockMicros(Window(config, defaults).value.0) ||
      Micros(now) < ClockMicros(Window(config, defaults).value.1)
  {
  }

  /** Start not after end: inactive from start up to, not including, end. */
  lemma DaytimeWindow(config: Settings, defaults: Defaults, now: TimeOfDay)
    requires Enabled(config, defaults) && Window(config, defaults).Some?
    requires ClockMicros(Window(config, defaults).value.0) <= ClockMicros(Window(config, defaults).value.1)
    ensures IsInactive(config, defaults, now) <==>
      ClockMicros(Window(config, defaults).value.0) <= Micros(now) < ClockMicros(Window(config, defaults).value.1)
  {
  }
}

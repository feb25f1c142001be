/**
 * Turning a target time of day into the instant get_historical_price asks
 * about. The clock reads and the local-time conversion are parameters: the
 * epoch milliseconds of today's local midnight (`datetime.now().date()`
 * combined with 00:00:00) and of "now" (`datetime.now()`).
 */
module TimeResolution {
  const MillisPerSecond: int := 1000
  const MillisPerMinute: int := 60 * MillisPerSecond
  const MillisPerHour: int := 60 * MillisPerMinute
  const DayMs: int := 86_400_000

  /** A target `HH:MM:SS`, as `strptime(..., "%H:%M:%S")` accepts it. */
  datatype TimeOfDay = TimeOfDay(hour: nat, minute: nat, second: nat) {
    predicate Valid() {
      hour < 24 && minute < 60 && second < 60
    }
  }

  /** Milliseconds from midnight to the target time of day. */
  function OffsetMs(t: TimeOfDay): (ms: nat)
    requires t.Valid()
    ensures ms < DayMs && ms % MillisPerSecond == 0
  {
    t.hour * MillisPerHour + t.minute * MillisPerMinute + t.second * MillisPerSecond
  }

  /** Reads a time of day back from its offset. */
  function TimeOfDayAt(ms: nat): TimeOfDay {
    TimeOfDay(ms / MillisPerHour, (ms / MillisPerMinute) % 60, (ms / MillisPerSecond) % 60)
  }

  /** Distinct valid times of day have distinct offsets. */
  lemma OffsetMsRoundTrip(t: TimeOfDay)
    requires t.Valid()
    ensures TimeOfDayAt(OffsetMs(t)) == t
  {
    var ms := OffsetMs(t);
    var seconds := t.hour * 3600 + t.minute * 60 + t.second;
    assert ms == seconds * 1000;
    assert ms / MillisPerSecond == seconds;
    var minutes := t.hour * 60 + t.minute;
    assert seconds == minutes * 60 + t.second;
    assert seconds % 60 == t.second;
    assert ms / MillisPerMinute == seconds / 60 == minutes;
    assert minutes % 60 == t.minute;
    assert ms / MillisPerHour == minutes / 60 == t.hour;
  }

  /** `datetime.combine(today, target)` as epoch milliseconds. */
  function CombineToday(todayMidnightMs: int, t: TimeOfDay): int
    requires t.Valid()
  {
    todayMidnightMs + OffsetMs(t)
  }

  /**
   * The target instant: today at the target time, or the day before when that
   * lies after "now".
   */
  function ResolveTarget(t: TimeOfDay, todayMidnightMs: int, nowMs: int): (ts: int)
    requires t.Valid()
    ensures ts == CombineToday(todayMidnightMs, t) <==> CombineToday(todayMidnightMs, t) <= nowMs
    ensures ts == CombineToday(todayMidnightMs, t) || ts == CombineToday(todayMidnightMs, t) - DayMs
    ensures todayMidnightMs <= nowMs ==> ts <= nowMs
  {
    var target := CombineToday(todayMidnightMs, t);
    if target > nowMs then target - DayMs else target
  }

  /**
   * When "now" falls on the day whose midnight is given, the resolved
   * instant is the latest instant at or before "now" that has the target
   * time of day: it has that time of day, is not after "now", and every
   * instant with that time of day that is not after "now" is not after it.
   */
  lemma ResolveTargetIsLatestOccurrence(t: TimeOfDay, todayMidnightMs: int, nowMs: int, other: int)
    requires t.Valid()
    requires todayMidnightMs <= nowMs < todayMidnightMs + DayMs
    requires (other - todayMidnightMs) % DayMs == OffsetMs(t) && other <= nowMs
    ensures var ts := ResolveTarget(t, todayMidnightMs, nowMs);
      && (ts - todayMidnightMs) % DayMs == OffsetMs(t)
      && ts <= nowMs < ts + DayMs
      && other <= ts
  {
  }
}

/**
 * The daily peak of the plant's power (`calculate_peak_power`): the peak restarts from 0.0 kW on
 * the first reading of each new day and is raised, rounded to three decimals, by every reading
 * above it. The caller supplies today's date in place of the wall clock and `round` as `rnd`.
 */
module Peak {
  import opened Common
  import opened Timestamps
  import Aggregation

  /** What `calculate_peak_power` returns: the peak in kW, the date of the last reset, and
      whether the caller must publish the peak again. */
  datatype PeakState = PeakState(peak: real, resetDate: Date, changed: bool)

  /** The peak the reading is compared with: the stored one on the same day, 0.0 on a new day. */
  function DayBase(previous: real, lastReset: Option<Date>, today: Date): real
  {
    if lastReset == Some(today) then previous else 0.0
  }

  /** One call of `calculate_peak_power`. */
  function CalculatePeakPower(current: Option<real>, previous: real, lastReset: Option<Date>,
                              today: Date, rnd: Aggregation.Rounding): (r: PeakState)
    ensures r.resetDate == today
    ensures !r.changed ==> r.peak == previous && lastReset == Some(today)
  {
    var isNewDay := lastReset.None? || lastReset.value != today;
    var base := if isNewDay then 0.0 else previous;
    var raise := current.Some? && current.value > base;
    PeakState(if raise then rnd(current.value, 3) else base, today, isNewDay || raise)
  }

  /** A new day (or no date stored yet) drops the old peak, whatever it was. */
  lemma NewDayResets(current: Option<real>, previous: real, lastReset: Option<Date>, today: Date,
                     rnd: Aggregation.Rounding)
    requires lastReset != Some(today)
    ensures CalculatePeakPower(current, previous, lastReset, today, rnd) ==
      PeakState(if current.Some? && current.value > 0.0 then rnd(current.value, 3) else 0.0,
                today, true)
  {
  }

  /** On the same day a reading above the stored peak replaces it, rounded. */
  lemma SameDayHigherRaises(current: Option<real>, previous: real, today: Date,
                            rnd: Aggregation.Rounding)
    requires current.Some? && current.value > previous
    ensures CalculatePeakPower(current, previous, Some(today), today, rnd) ==
      PeakState(rnd(current.value, 3), today, true)
  {
  }

  /** On the same day a missing reading, or one not above the stored peak, changes nothing. */
  lemma SameDayOtherwiseKeeps(current: Option<real>, previous: real, today: Date,
                              rnd: Aggregation.Rounding)
    requires current.None? || current.value <= previous
    ensures CalculatePeakPower(current, previous, Some(today), today, rnd) ==
      PeakState(previous, today, false)
  {
  }

  /** Feeding the result back with the same reading keeps the peak; it reports a change again
      exactly when rounding left the peak below the reading. */
  lemma RepeatKeepsPeak(current: Option<real>, previous: real, lastReset: Option<Date>,
                        today: Date, rnd: Aggregation.Rounding)
    ensures var first := CalculatePeakPower(current, previous, lastReset, today, rnd);
            var second := CalculatePeakPower(current, first.peak, Some(first.resetDate), today, rnd);
            second.peak == first.peak && second.resetDate == first.resetDate &&
            (second.changed <==> current.Some? && current.value > first.peak)
  {
  }

  /** `rnd` keeps positive values non-negative, as `round` does. */
  ghost predicate RoundsNonNegative(rnd: Aggregation.Rounding)
  {
    forall x: real :: x > 0.0 ==> rnd(x, 3) >= 0.0
  }

  /** The peak is never negative: a new day starts it from 0.0, and only a reading above it,
      rounded, replaces it. */
  lemma PeakNonNegative(current: Option<real>, previous: real, lastReset: Option<Date>,
                        today: Date, rnd: Aggregation.Rounding)
    requires previous >= 0.0 || lastReset != Some(today)
    requires RoundsNonNegative(rnd)
    ensures CalculatePeakPower(current, previous, lastReset, today, rnd).peak >= 0.0
  {
    if current.Some? && current.value > 0.0 {
      assert rnd(current.value, 3) >= 0.0;
    }
  }

  /** The state after a day's readings, each call fed the state the previous one returned. */
  function Replay(start: PeakState, readings: seq<Option<real>>, today: Date,
                  rnd: Aggregation.Rounding): (r: PeakState)
    ensures readings != [] ==> r.resetDate == today
    decreases |readings|
  {
    if readings == [] then start
    else
      var before := Replay(start, readings[..|readings| - 1], today, rnd);
      CalculatePeakPower(readings[|readings| - 1], before.peak, Some(before.resetDate), today, rnd)
  }

  /** A peak that starts non-negative stays so over any sequence of calls. */
  lemma {:induction false} ReplayNonNegative(start: PeakState, readings: seq<Option<real>>,
                                             today: Date, rnd: Aggregation.Rounding)
    requires start.peak >= 0.0 && RoundsNonNegative(rnd)
    ensures Replay(start, readings, today, rnd).peak >= 0.0
    decreases |readings|
  {
    if readings != [] {
      var before := Replay(start, readings[..|readings| - 1], today, rnd);
      ReplayNonNegative(start, readings[..|readings| - 1], today, rnd);
      PeakNonNegative(readings[|readings| - 1], before.peak, Some(before.resetDate), today, rnd);
    }
  }

  /** `rnd` leaves every reading as it is (readings already carry at most three decimals). */
  predicate ExactReadings(readings: seq<Option<real>>, rnd: Aggregation.Rounding)
  {
    forall k :: 0 <= k < |readings| && readings[k].Some? ==>
      rnd(readings[k].value, 3) == readings[k].value
  }

  /** The maximum of `base` and every present reading. */
  predicate IsDailyMaximum(m: real, base: real, readings: seq<Option<real>>)
  {
    && m >= base
    && (forall k :: 0 <= k < |readings| && readings[k].Some? ==> m >= readings[k].value)
    && (m == base || exists k :: 0 <= k < |readings| && readings[k] == Some(m))
  }

  /** Over one day the peak is the largest reading seen that day (or the day's starting peak),
      provided rounding does not move the readings. */
  lemma {:induction false} ReplayIsDailyMaximum(start: PeakState, readings: seq<Option<real>>,
                                                today: Date, rnd: Aggregation.Rounding)
    requires start.resetDate == today
    requires ExactReadings(readings, rnd)
    ensures Replay(start, readings, today, rnd).resetDate == today
    ensures IsDailyMaximum(Replay(start, readings, today, rnd).peak, start.peak, readings)
    decreases |readings|
  {
    if readings != [] {
      var n := |readings| - 1;
      var init := readings[..n];
      assert ExactReadings(init, rnd) by {
        forall k | 0 <= k < |init| && init[k].Some?
          ensures rnd(init[k].value, 3) == init[k].value
        {
          assert init[k] == readings[k];
        }
      }
      ReplayIsDailyMaximum(start, init, today, rnd);
      var before := Replay(start, init, today, rnd);
      var r := Replay(start, readings, today, rnd);
      assert r == CalculatePeakPower(readings[n], before.peak, Some(today), today, rnd);
      forall k | 0 <= k < |readings| && readings[k].Some?
        ensures r.peak >= readings[k].value
      {
        if k < n {
          assert init[k] == readings[k];
        }
      }
      if r.peak != start.peak {
        if r.peak == before.peak {
          var k :| 0 <= k < |init| && init[k] == Some(before.peak);
          assert readings[k] == init[k];
        } else {
          assert readings[n] == Some(r.peak);
        }
      }
    }
  }
}

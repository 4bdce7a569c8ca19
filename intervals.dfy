/**
 * The `cron_schedules` filter: registers the recurrences `weekly` and
 * `monthly`. The display labels are kept untranslated.
 */
module Intervals {

  /** One entry of the schedules array: `['interval' => ..., 'display' => ...]`. */
  datatype CronSchedule = CronSchedule(interval: int, display: string)

  const Weekly := "weekly"
  const Monthly := "monthly"
  const WeekSeconds := 604800
  /** A fixed 30.5 days, not a calendar month. */
  const MonthSeconds := 2635200

  /** `custom_cron_intervals($schedules)`. */
  function CustomCronIntervals(schedules: map<string, CronSchedule>): (r: map<string, CronSchedule>)
    ensures r.Keys == schedules.Keys + {Weekly, Monthly}
    ensures r[Weekly].interval == WeekSeconds && r[Monthly].interval == MonthSeconds
    ensures forall k :: k in schedules && k != Weekly && k != Monthly ==> r[k] == schedules[k]
  {
    schedules[Weekly := CronSchedule(WeekSeconds, "Once Weekly")][Monthly := CronSchedule(MonthSeconds, "Once a month")]
  }

  /** Running the filter again changes nothing. */
  lemma CustomCronIntervalsIdempotent(schedules: map<string, CronSchedule>)
    ensures CustomCronIntervals(CustomCronIntervals(schedules)) == CustomCronIntervals(schedules)
  {
  }

  /** Existing `weekly` and `monthly` entries are overwritten, whatever they held. */
  lemma CustomCronIntervalsOverwrites(schedules: map<string, CronSchedule>, other: map<string, CronSchedule>)
    requires schedules.Keys - {Weekly, Monthly} == other.Keys - {Weekly, Monthly}
    requires forall k :: k in schedules && k in other && k != Weekly && k != Monthly ==> schedules[k] == other[k]
    ensures CustomCronIntervals(schedules) == CustomCronIntervals(other)
  {
    var a, b := CustomCronIntervals(schedules), CustomCronIntervals(other);
    assert a.Keys == b.Keys by {
      assert a.Keys == (schedules.Keys - {Weekly, Monthly}) + {Weekly, Monthly};
      assert b.Keys == (other.Keys - {Weekly, Monthly}) + {Weekly, Monthly};
    }
    forall k | k in a
      ensures a[k] == b[k]
    {
      if k != Weekly && k != Monthly {
        assert k in schedules.Keys - {Weekly, Monthly};
      }
    }
  }
}

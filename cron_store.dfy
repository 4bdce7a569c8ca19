/**
 * WP-Cron, reduced to what the plugin touches: the pending events of its one
 * hook, `scheduled_build`. Events of other hooks are never read or written by
 * the plugin and are not part of this store. Since the plugin schedules the
 * hook without arguments, WordPress keeps at most one such event per
 * timestamp, so the pending events are a map from timestamp to recurrence name.
 */
module Cron {
  import opened Wrappers
  import opened Php

  type Events = map<int, PhpValue>

  /** A non-empty set of timestamps has a member. */
  lemma HasMember(s: set<int>)
    requires s != {}
    ensures exists t :: t in s
  {
    if forall t :: t !in s {
      assert false;
    }
  }

  /** The least element of a non-empty set of timestamps. */
  ghost function Earliest(s: set<int>): (t: int)
    requires s != {}
    ensures t in s && forall u :: u in s ==> t <= u
  {
    HasMember(s);
    var x :| x in s;
    if s == {x} then x
    else
      var r := Earliest(s - {x});
      assert forall u :: u in s ==> u == x || u in s - {x};
      if x <= r then x else r
  }

  /** `wp_next_scheduled`: the earliest pending timestamp, or `false` (None). */
  ghost function NextOf(events: Events): Option<int> {
    if events == map[] then None else Some(Earliest(events.Keys))
  }

  /** Every pending timestamp is positive (WordPress refuses the others). */
  predicate Positive(events: Events) {
    forall t :: t in events ==> t > 0
  }

  /**
   * `wp_schedule_event` accepts an event when the timestamp is a positive
   * number and the recurrence names a registered schedule.
   */
  predicate Accepts(registered: set<string>, timestamp: Option<int>, recurrence: PhpValue) {
    timestamp.Some? && timestamp.value > 0 && recurrence.Str? && recurrence.s in registered
  }

  /** The pending events after `wp_schedule_event(timestamp, recurrence, hook)`. */
  function AfterSchedule(registered: set<string>, events: Events, timestamp: Option<int>, recurrence: PhpValue): Events {
    if Accepts(registered, timestamp, recurrence) then events[timestamp.value := recurrence] else events
  }

  /**
   * The pending events after `wp_unschedule_event(timestamp, hook)`; a
   * timestamp that is `false` or not positive is refused and changes nothing.
   */
  function AfterUnschedule(events: Events, timestamp: Option<int>): Events {
    if timestamp.Some? && timestamp.value > 0 then events - {timestamp.value} else events
  }

  class CronStore {
    /** The recurrence names `wp_get_schedules()` knows. */
    const registered: set<string>
    /** Pending `scheduled_build` events: timestamp to recurrence name. */
    var events: Events

    ghost predicate Valid()
      reads this
    {
      Positive(events)
    }

    constructor (registered: set<string>)
      ensures Valid() && this.registered == registered && events == map[]
    {
      this.registered := registered;
      events := map[];
    }

    /** `wp_next_scheduled('scheduled_build')`: scans the pending events for the earliest. */
    method NextScheduled() returns (next: Option<int>)
      ensures next == NextOf(events)
      ensures next.Some? <==> events != map[]
      ensures next.Some? ==> next.value in events && forall t :: t in events ==> next.value <= t
    {
      if events == map[] {
        return None;
      }
      HasMember(events.Keys);
      var best :| best in events;
      var rest := events.Keys - {best};
      while rest != {}
        invariant rest <= events.Keys
        invariant best in events
        invariant forall t :: t in events && t !in rest ==> best <= t
        decreases rest
      {
        HasMember(rest);
        var t :| t in rest;
        if t < best {
          best := t;
        }
        rest := rest - {t};
      }
      var e := Earliest(events.Keys);
      assert best <= e && e <= best;
      next := Some(best);
    }

    /** `wp_schedule_event(timestamp, recurrence, 'scheduled_build')`. */
    method ScheduleEvent(timestamp: Option<int>, recurrence: PhpValue) returns (ok: bool)
      requires Valid()
      modifies this
      ensures Valid()
      ensures ok == Accepts(registered, timestamp, recurrence)
      ensures events == AfterSchedule(registered, old(events), timestamp, recurrence)
    {
      ok := timestamp.Some? && timestamp.value > 0 && recurrence.Str? && recurrence.s in registered;
      if ok {
        events := events[timestamp.value := recurrence];
      }
    }

    /** `wp_unschedule_event(timestamp, 'scheduled_build')`. */
    method UnscheduleEvent(timestamp: Option<int>)
      requires Valid()
      modifies this
      ensures Valid()
      ensures events == AfterUnschedule(old(events), timestamp)
    {
      if timestamp.Some? && timestamp.value > 0 {
        events := events - {timestamp.value};
      }
    }
  }

  /** Scheduling adds at most one event, at the given timestamp. */
  lemma AfterScheduleAddsOne(registered: set<string>, events: Events, timestamp: Option<int>, recurrence: PhpValue)
    requires events == map[]
    ensures var r := AfterSchedule(registered, events, timestamp, recurrence);
            && (r != map[] <==> Accepts(registered, timestamp, recurrence))
            && (r != map[] ==> r == map[timestamp.value := recurrence])
  {
    if Accepts(registered, timestamp, recurrence) {
      assert timestamp.value in AfterSchedule(registered, events, timestamp, recurrence);
    }
  }
}

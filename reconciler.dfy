/**
 * Schedule reconciler: the plugin's three methods that keep the
 * `scheduled_build` cron event in line with the schedule settings.
 *
 * Each method is specified by a function of the pending events before the
 * call (`Deactivated`, `SelfHealed`, `Reconciled`); the lemmas below state
 * what those functions guarantee, most of them under the invariant that at
 * most one event is pending, which every method preserves.
 */
module Reconciler {
  import opened Wrappers
  import opened Php
  import opened Options
  import opened Cron
  import opened Intervals

  /** `strtotime` as the caller's clock sees it; `None` stands for its `false`. */
  type TimeParser = PhpValue -> Option<int>

  /** `enable_scheduled_builds` is truthy. */
  predicate SchedulingEnabled(cfg: Config) {
    Truthy(GetOption(cfg, EnableScheduledBuildsOption))
  }

  /** `strtotime(get_option('select_time_build'))`. */
  function ConfiguredTimestamp(cfg: Config, strtotime: TimeParser): Option<int> {
    strtotime(GetOption(cfg, TimeOption))
  }

  /** `get_option('select_schedule_builds')[0]`. */
  function ConfiguredRecurrence(cfg: Config): PhpValue {
    ElementZero(GetOption(cfg, ScheduleOption))
  }

  /** The events the settings ask for: one, or none when WP-Cron refuses it. */
  function ConfiguredEvents(cfg: Config, registered: set<string>, strtotime: TimeParser): Events {
    AfterSchedule(registered, map[], ConfiguredTimestamp(cfg, strtotime), ConfiguredRecurrence(cfg))
  }

  /** The plugin's invariant: at most one `scheduled_build` event is pending. */
  predicate AtMostOne(events: Events) {
    |events| <= 1
  }

  /** `deactivate_scheduled_cron`: unschedule whatever `wp_next_scheduled` reports. */
  ghost function Deactivated(events: Events): Events {
    AfterUnschedule(events, NextOf(events))
  }

  /** `set_build_schedule_cron`: create the event only when none is pending. */
  ghost function SelfHealed(cfg: Config, registered: set<string>, strtotime: TimeParser, events: Events): Events {
    if SchedulingEnabled(cfg) then
      if NextOf(events).None? then
        AfterSchedule(registered, events, ConfiguredTimestamp(cfg, strtotime), ConfiguredRecurrence(cfg))
      else
        events
    else
      Deactivated(events)
  }

  /** `build_schedule_options_updated`: tear down, then schedule afresh when enabled. */
  ghost function Reconciled(cfg: Config, registered: set<string>, strtotime: TimeParser, events: Events): Events {
    if SchedulingEnabled(cfg) then
      SelfHealed(cfg, registered, strtotime, Deactivated(events))
    else
      Deactivated(events)
  }

  method DeactivateScheduledCron(cron: CronStore)
    requires cron.Valid()
    modifies cron
    ensures cron.Valid()
    ensures cron.events == Deactivated(old(cron.events))
  {
    var timestamp := cron.NextScheduled();
    cron.UnscheduleEvent(timestamp);
  }

  method SetBuildScheduleCron(cfg: Config, cron: CronStore, strtotime: TimeParser)
    requires cron.Valid()
    modifies cron
    ensures cron.Valid()
    ensures cron.events == SelfHealed(cfg, cron.registered, strtotime, old(cron.events))
  {
    var enableBuilds := GetOption(cfg, EnableScheduledBuildsOption);
    if Truthy(enableBuilds) {
      // Pending timestamps are positive, so "no next run" is exactly `None`.
      var next := cron.NextScheduled();
      if next.None? {
        var schedule := GetOption(cfg, ScheduleOption);
        var setTime := GetOption(cfg, TimeOption);
        var timestamp := strtotime(setTime);
        var _ := cron.ScheduleEvent(timestamp, ElementZero(schedule));
      }
    } else {
      DeactivateScheduledCron(cron);
    }
  }

  method BuildScheduleOptionsUpdated(cfg: Config, cron: CronStore, strtotime: TimeParser)
    requires cron.Valid()
    modifies cron
    ensures cron.Valid()
    ensures cron.events == Reconciled(cfg, cron.registered, strtotime, old(cron.events))
    ensures AtMostOne(old(cron.events)) ==>
              cron.events == (if SchedulingEnabled(cfg) then ConfiguredEvents(cfg, cron.registered, strtotime) else map[])
  {
    if AtMostOne(cron.events) {
      ReconciledMatchesSettings(cfg, cron.registered, strtotime, cron.events);
    }
    var enableBuilds := GetOption(cfg, EnableScheduledBuildsOption);
    if Truthy(enableBuilds) {
      // Clean any previous setting, then reset the schedule.
      DeactivateScheduledCron(cron);
      SetBuildScheduleCron(cfg, cron, strtotime);
    } else {
      DeactivateScheduledCron(cron);
    }
  }

  /** Deactivation removes the earliest pending event and nothing else. */
  lemma DeactivatedRemovesEarliest(events: Events)
    requires Positive(events)
    ensures events == map[] ==> Deactivated(events) == events
    ensures events != map[] ==>
              && Deactivated(events) == events - {Earliest(events.Keys)}
              && |Deactivated(events)| == |events| - 1
  {
    if events != map[] {
      var t := Earliest(events.Keys);
      assert (events - {t}).Keys == events.Keys - {t};
    }
  }

  /** With at most one event pending, deactivation leaves none. */
  lemma DeactivatedLeavesNone(events: Events)
    requires Positive(events) && AtMostOne(events)
    ensures Deactivated(events) == map[]
  {
    DeactivatedRemovesEarliest(events);
  }

  /** Scheduling from nothing yields exactly the configured events. */
  lemma ConfiguredEventsShape(cfg: Config, registered: set<string>, strtotime: TimeParser)
    ensures var r := ConfiguredEvents(cfg, registered, strtotime);
            && Positive(r) && AtMostOne(r)
            && (r != map[] <==> Accepts(registered, ConfiguredTimestamp(cfg, strtotime), ConfiguredRecurrence(cfg)))
            && (r != map[] ==> r == map[ConfiguredTimestamp(cfg, strtotime).value := ConfiguredRecurrence(cfg)])
  {
    AfterScheduleAddsOne(registered, map[], ConfiguredTimestamp(cfg, strtotime), ConfiguredRecurrence(cfg));
  }

  /**
   * The self-heal path never touches a pending event, creates the configured
   * one when nothing is pending, and is deactivation when disabled.
   */
  lemma SelfHealedCases(cfg: Config, registered: set<string>, strtotime: TimeParser, events: Events)
    ensures SchedulingEnabled(cfg) && events != map[] ==> SelfHealed(cfg, registered, strtotime, events) == events
    ensures SchedulingEnabled(cfg) && events == map[] ==>
              SelfHealed(cfg, registered, strtotime, events) == ConfiguredEvents(cfg, registered, strtotime)
    ensures !SchedulingEnabled(cfg) ==> SelfHealed(cfg, registered, strtotime, events) == Deactivated(events)
  {
  }

  /**
   * Calling the self-heal path twice is the same as calling it once: always
   * when scheduling is enabled, and under the invariant when it is disabled.
   */
  lemma SelfHealedIdempotent(cfg: Config, registered: set<string>, strtotime: TimeParser, events: Events)
    ensures SchedulingEnabled(cfg) || (Positive(events) && AtMostOne(events)) ==>
            var once := SelfHealed(cfg, registered, strtotime, events);
            SelfHealed(cfg, registered, strtotime, once) == once
  {
    if SchedulingEnabled(cfg) {
      if events == map[] {
        ConfiguredEventsShape(cfg, registered, strtotime);
      }
    } else if Positive(events) && AtMostOne(events) {
      DeactivatedLeavesNone(events);
    }
  }

  /**
   * When disabled and two events are pending, each self-heal run removes only
   * the earliest, so a second run changes the store again.
   */
  lemma SelfHealedDisabledNotIdempotent(cfg: Config, registered: set<string>, strtotime: TimeParser)
    requires !SchedulingEnabled(cfg)
    ensures var events := map[1 := Str("daily"), 2 := Str("weekly")];
            && SelfHealed(cfg, registered, strtotime, events) == map[2 := Str("weekly")]
            && SelfHealed(cfg, registered, strtotime, map[2 := Str("weekly")]) == map[]
  {
    var events := map[1 := Str("daily"), 2 := Str("weekly")];
    assert events.Keys == {1, 2};
    assert Earliest(events.Keys) == 1;
    assert Deactivated(events) == map[2 := Str("weekly")];
    var rest := map[2 := Str("weekly")];
    assert rest.Keys == {2};
    assert NextOf(rest) == Some(2);
    assert rest - {2} == map[];
  }

  /**
   * After a settings change the pending events are exactly those the new
   * settings describe, whatever was pending before (at most one event).
   */
  lemma ReconciledMatchesSettings(cfg: Config, registered: set<string>, strtotime: TimeParser, events: Events)
    requires Positive(events) && AtMostOne(events)
    ensures Reconciled(cfg, registered, strtotime, events)
            == if SchedulingEnabled(cfg) then ConfiguredEvents(cfg, registered, strtotime) else map[]
  {
    DeactivatedLeavesNone(events);
  }

  /** Every path keeps at most one pending event. */
  lemma AtMostOnePreserved(cfg: Config, registered: set<string>, strtotime: TimeParser, events: Events)
    requires Positive(events) && AtMostOne(events)
    ensures AtMostOne(Deactivated(events))
    ensures AtMostOne(SelfHealed(cfg, registered, strtotime, events))
    ensures AtMostOne(Reconciled(cfg, registered, strtotime, events))
  {
    DeactivatedLeavesNone(events);
    ConfiguredEventsShape(cfg, registered, strtotime);
    ReconciledMatchesSettings(cfg, registered, strtotime, events);
  }

  /**
   * Switching a weekly 10:00 schedule to daily leaves exactly one event, the
   * daily one at the newly parsed time.
   */
  lemma WeeklyToDaily(cfg: Config, registered: set<string>, strtotime: TimeParser, oldRun: int)
    requires oldRun > 0
    requires SchedulingEnabled(cfg)
    requires GetOption(cfg, ScheduleOption) == Arr([Str("daily")])
    requires "daily" in registered
    requires ConfiguredTimestamp(cfg, strtotime).Some? && ConfiguredTimestamp(cfg, strtotime).value > 0
    ensures Reconciled(cfg, registered, strtotime, map[oldRun := Str("weekly")])
            == map[ConfiguredTimestamp(cfg, strtotime).value := Str("daily")]
  {
    ReconciledMatchesSettings(cfg, registered, strtotime, map[oldRun := Str("weekly")]);
  }

  /**
   * Without the invariant a stale event survives: with two events pending,
   * tearing down removes only the earlier one, and the later one then stops
   * the new schedule from being created.
   */
  lemma StaleEventWithoutInvariant(cfg: Config, registered: set<string>, strtotime: TimeParser)
    requires SchedulingEnabled(cfg)
    ensures Reconciled(cfg, registered, strtotime, map[1 := Str("daily"), 2 := Str("weekly")])
            == map[2 := Str("weekly")]
  {
    var events := map[1 := Str("daily"), 2 := Str("weekly")];
    assert events.Keys == {1, 2};
    assert Earliest(events.Keys) == 1;
    var rest := Deactivated(events);
    assert rest == map[2 := Str("weekly")];
    assert rest.Keys == {2};
    assert NextOf(rest) == Some(2);
  }

  /**
   * Once `custom_cron_intervals` has run as the `cron_schedules` filter, a
   * positive first run with either custom recurrence is accepted by WP-Cron.
   */
  lemma CustomRecurrencesAccepted(schedules: map<string, CronSchedule>, timestamp: int)
    requires timestamp > 0
    ensures Accepts(CustomCronIntervals(schedules).Keys, Some(timestamp), Str(Weekly))
    ensures Accepts(CustomCronIntervals(schedules).Keys, Some(timestamp), Str(Monthly))
  {
  }
}

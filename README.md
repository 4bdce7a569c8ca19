# GitHub Trigger Workflow: deploy-trigger policy in Dafny

The WordPress plugin `github_workflow_deploy` starts a GitHub Actions workflow
run (a static-site rebuild) from three places: a manual button, a recurring
WP-Cron event named `scheduled_build`, and post-status hooks. This project
models the decision logic behind those triggers and proves its properties:

- **Deploy dispatcher** (`dispatcher.dfy`, module `Dispatcher`):
  `is_using_constant_webhook`, `get_webhook_address`,
  `get_github_access_token`, `get_github_deploy_branch` and
  `fire_github_deploy`. A deploy is the value of the one `wp_remote_post` call
  it makes (`Some(Request(...))`), or `None` when the plugin returns `false`
  without sending anything.
- **Publish-event trigger** (`trigger.dfy`, module `Trigger`):
  `vb_webhook_post` and `vb_webhook_future_post`. Each is a function from the
  configuration (and the old and new post status) to `Ignored` or
  `Deployed(request sent)`.
- **Custom recurrences** (`intervals.dfy`, module `Intervals`): the
  `cron_schedules` filter `custom_cron_intervals`.
- **Schedule reconciler** (`reconciler.dfy`, module `Reconciler`):
  `deactivate_scheduled_cron`, `set_build_schedule_cron` and
  `build_schedule_options_updated`. These are methods that change a
  `Cron.CronStore` object, the WP-Cron store reduced to the pending
  `scheduled_build` events (`cron_store.dfy`). Each method is proved equal to a
  function of the events pending before the call (`Deactivated`, `SelfHealed`,
  `Reconciled`). Lemmas about those functions state the self-heal idempotence,
  the destroy-then-recreate outcome and the "at most one pending event"
  invariant.

Shared pieces: `php.dfy` gives the PHP values the plugin reads: `null`,
booleans, strings and list arrays. It also gives PHP truthiness (`false`,
`null`, `""`, `"0"` and `[]` are falsy), string conversion for `.`, and the
read `$x[0]`. `options.dfy` gives the configuration record: the constants in
effect and the option table, where `get_option` yields `false` for an option
never saved. `wrappers.dfy` holds `Option`.

Collaborators become parameters:
- `strtotime` is a caller-supplied function from the time option to
  `Option<int>`, with `None` for its `false`.
- WP-Cron is the `CronStore` class. Its `registered` field is the set of
  recurrence names `wp_get_schedules()` knows.
- `wp_schedule_event` accepts an event only for a positive numeric timestamp
  and a registered recurrence name, as WordPress 5.1 and later do.
- `wp_unschedule_event` ignores a timestamp that is `false` or not positive.
- `wp_next_scheduled` returns the earliest pending timestamp.

Behaviour of the code that the model keeps:
- The request goes to the configured address exactly as stored. No
  `/dispatches` suffix is added. The address must already be the full
  workflow-dispatch URL, as the settings placeholder suggests.
- The body is the PHP array `['ref' => branch]`, which WordPress form-encodes.
  It is not a JSON document.
- Token and branch are never checked. An unset token yields the header
  `Bearer `.
- `deactivate_scheduled_cron` removes only the earliest pending event. "No
  event left after deactivation" therefore holds only while at most one event
  is pending. Every method preserves that invariant
  (`Reconciler.AtMostOnePreserved`). `Reconciler.StaleEventWithoutInvariant`
  shows what happens when it is broken: with two events pending, a settings
  change leaves the later, stale one in place and schedules nothing new.
- With scheduling enabled, the settings-change path gives exactly the
  configured event whatever was pending before, under the invariant. That
  event exists when WP-Cron accepts the parsed time and the recurrence.
  Otherwise no event is left.

## Model

| member | source | states |
|---|---|---|
| `Php.Truthy` | github-workflow-deploy.php:648 | PHP truthiness as `if ($webhook_url)` and `!empty(...)` use it: false exactly for `null`, `false`, `""`, `"0"` and the empty array |
| `Php.FalsyValues` | github-workflow-deploy.php:79-82 | `false`, `null`, `""`, `"0"` and the empty array are falsy (what `empty()` and `if` test); `"00"`, `"false"`, `" "` and `[false]` are truthy |
| `Php.ToStr` | github-workflow-deploy.php:652 | PHP's string conversion by `.`; `Dispatcher.BearerRoundTrip` states that the token's converted form is what the header carries |
| `Options.GetOption` | github-workflow-deploy.php:101-104 | `get_option`: the saved value, `false` when never saved; `Dispatcher.UnsetCredentialsStillSent` states the effect of that default on a deploy |
| `Php.ElementZero` | github-workflow-deploy.php:616 | `$schedule[0]` is the first item of a non-empty list, `null` for an empty list or a scalar, and a one-character prefix of a string |
| `Dispatcher.IsUsingConstantWebhook` | github-workflow-deploy.php:79-82 | `WP_WEBHOOK_ADDRESS` is defined and not empty; `Dispatcher.ConstantOverridesOption` and `Dispatcher.FalsyConstantFallsBack` state its effect on the address |
| `Dispatcher.GetWebhookAddress` | github-workflow-deploy.php:88-95 | the constant when it is in use, else the `webhook_address` option, as `Dispatcher.ConstantOverridesOption` and `Dispatcher.FalsyConstantFallsBack` state |
| `Dispatcher.GetGithubAccessToken` | github-workflow-deploy.php:101-104 | the `github_access_token` option; `Dispatcher.RequestContents` states that it is what the `Authorization` header carries |
| `Dispatcher.GetGithubDeployBranch` | github-workflow-deploy.php:110-113 | the `github_deploy_branch` option; `Dispatcher.RequestContents` states that it is the `ref` body field |
| `Dispatcher.FireGithubDeploy` | github-workflow-deploy.php:643-661 | the request `fire_github_deploy` sends, or `None` for its `return false`; `Dispatcher.NothingSentIffNoAddress`, `Dispatcher.RequestContents` and `Dispatcher.UnsetCredentialsStillSent` state when and what |
| `Dispatcher.ConstantOverridesOption` | github-workflow-deploy.php:79-95 | when `WP_WEBHOOK_ADDRESS` is defined and non-empty, the address is that constant and no option value changes it |
| `Dispatcher.FalsyConstantFallsBack` | github-workflow-deploy.php:79-95 | when the constant is undefined or falsy, the address is the `webhook_address` option |
| `Dispatcher.NothingSentIffNoAddress` | github-workflow-deploy.php:643-661 | a deploy sends nothing (returns `false`) if and only if neither a non-empty constant nor a truthy option supplies an address |
| `Dispatcher.RequestContents` | github-workflow-deploy.php:648-658 | a sent request is one POST to the resolved address itself, with exactly one header `Authorization` that parses back to the token, and exactly one body field `ref` equal to the branch option |
| `Dispatcher.BearerRoundTrip` | github-workflow-deploy.php:652 | the `Authorization` value `'Bearer ' . $token` parses back to the token's string form |
| `Dispatcher.UnsetCredentialsStillSent` | github-workflow-deploy.php:643-661 | with an address but no token or branch saved, the request is still sent, with header `Bearer ` and `ref` = `false` |
| `Trigger.VbWebhookPost` | github-workflow-deploy.php:663-672 | whether the status-transition hook calls `fire_github_deploy`, and the request sent; `Trigger.TransitionDeploysIff` and `Trigger.TransitionTruthTable` state when |
| `Trigger.VbWebhookFuturePost` | github-workflow-deploy.php:674-680 | whether the future-post hook calls `fire_github_deploy`, and the request sent; `Trigger.FuturePostDeploysIff` states when |
| `Trigger.TransitionDeploysIff` | github-workflow-deploy.php:663-672 | the transition hook deploys if and only if `enable_on_post_update` is truthy, the request is not a REST request and one of the two statuses is `publish`; it then sends `FireGithubDeploy(cfg)`, the request `fire_github_deploy` builds, as the future-post hook does |
| `Trigger.FuturePostDeploysIff` | github-workflow-deploy.php:674-680 | the future-post hook deploys if and only if `enable_on_post_update` is truthy, and then sends `FireGithubDeploy(cfg)` |
| `Trigger.RestTransitionsNeverDeploy` | github-workflow-deploy.php:666-671 | a transition during a REST request never deploys |
| `Trigger.DisabledNeverDeploys` | github-workflow-deploy.php:663-680 | with `enable_on_post_update` falsy neither hook deploys |
| `Trigger.TransitionTruthTable` | github-workflow-deploy.php:668-671 | enabled and not REST: draft to publish, publish to draft, publish to publish and publish to trash deploy; draft to pending, draft to draft and draft to future do not |
| `Trigger.FuturePostIgnoresRestFlag` | github-workflow-deploy.php:674-680 | the future-post hook's outcome does not depend on `REST_REQUEST` |
| `Intervals.CustomCronIntervals` | github-workflow-deploy.php:347-359 | the result has the input's keys plus `weekly` and `monthly`, with intervals 604800 and 2635200, and every other entry unchanged |
| `Intervals.CustomCronIntervalsIdempotent` | github-workflow-deploy.php:347-359 | applying the filter twice equals applying it once |
| `Intervals.CustomCronIntervalsOverwrites` | github-workflow-deploy.php:347-359 | the result ignores whatever the input held under `weekly` and `monthly` |
| `Reconciler.CustomRecurrencesAccepted` | github-workflow-deploy.php:347-359 | once the filter has run, WP-Cron accepts a positive first run with recurrence `weekly` or `monthly` |
| `Cron.Earliest` | github-workflow-deploy.php:632 | the earliest of the pending timestamps, which `wp_next_scheduled` reports, is pending and no later than any other |
| `Cron.NextOf` | github-workflow-deploy.php:632 | `wp_next_scheduled`: `None` on an empty store, otherwise `Cron.Earliest` of the pending timestamps; `Cron.CronStore.NextScheduled` is proved equal to it |
| `Cron.Accepts` | github-workflow-deploy.php:616 | `wp_schedule_event`'s acceptance: a positive numeric timestamp and a registered recurrence name; `Reconciler.CustomRecurrencesAccepted` and `Reconciler.ConfiguredEventsShape` use it |
| `Cron.AfterSchedule` | github-workflow-deploy.php:616 | the store after `wp_schedule_event`; `Cron.AfterScheduleAddsOne` states its result from an empty store |
| `Cron.AfterUnschedule` | github-workflow-deploy.php:634 | the store after `wp_unschedule_event`; `Reconciler.DeactivatedRemovesEarliest` states its effect when given the earliest timestamp |
| `Cron.CronStore.NextScheduled` | github-workflow-deploy.php:632 | the scan returns `None` exactly when nothing is pending, and otherwise the earliest pending timestamp |
| `Cron.CronStore.ScheduleEvent` | github-workflow-deploy.php:616 | adds the event at the timestamp exactly when WP-Cron accepts the timestamp and recurrence, and otherwise changes nothing |
| `Cron.CronStore.UnscheduleEvent` | github-workflow-deploy.php:634 | removes the event at a positive timestamp and ignores `false` |
| `Cron.AfterScheduleAddsOne` | github-workflow-deploy.php:616 | scheduling into an empty store yields one event at the given timestamp if accepted, and none otherwise |
| `Reconciler.DeactivateScheduledCron` | github-workflow-deploy.php:629-635 | the pending events become `Deactivated` of the old ones: the earliest is unscheduled |
| `Reconciler.SetBuildScheduleCron` | github-workflow-deploy.php:608-621 | the pending events become `SelfHealed` of the old ones |
| `Reconciler.BuildScheduleOptionsUpdated` | github-workflow-deploy.php:589-600 | the pending events become `Reconciled` of the old ones. If at most one event was pending, they are exactly the configured event when enabled and none when disabled |
| `Reconciler.Deactivated` | github-workflow-deploy.php:629-635 | `deactivate_scheduled_cron` on the pending events; `Reconciler.DeactivatedRemovesEarliest` and `Reconciler.DeactivatedLeavesNone` state its result |
| `Reconciler.SelfHealed` | github-workflow-deploy.php:608-621 | `set_build_schedule_cron` on the pending events; `Reconciler.SelfHealedCases` and `Reconciler.SelfHealedIdempotent` state its result |
| `Reconciler.Reconciled` | github-workflow-deploy.php:589-600 | `build_schedule_options_updated` on the pending events; `Reconciler.ReconciledMatchesSettings` states its result |
| `Reconciler.DeactivatedRemovesEarliest` | github-workflow-deploy.php:629-635 | deactivation is a no-op on an empty store and otherwise removes exactly the earliest pending event |
| `Reconciler.DeactivatedLeavesNone` | github-workflow-deploy.php:629-635 | with at most one event pending, deactivation leaves none |
| `Reconciler.ConfiguredEventsShape` | github-workflow-deploy.php:613-616 | the configured events are at most one, at `strtotime(select_time_build)` with recurrence `select_schedule_builds[0]`, present exactly when WP-Cron accepts them |
| `Reconciler.SelfHealedCases` | github-workflow-deploy.php:608-621 | enabled with an event pending: nothing changes; enabled with none pending: the configured event is created; disabled: same as deactivation |
| `Reconciler.SelfHealedIdempotent` | github-workflow-deploy.php:608-621 | running the self-heal path twice equals running it once: for any pending events when enabled, and under the invariant when disabled |
| `Reconciler.SelfHealedDisabledNotIdempotent` | github-workflow-deploy.php:608-621 | when disabled with two events pending, one run removes the earlier and a second run removes the other |
| `Reconciler.ReconciledMatchesSettings` | github-workflow-deploy.php:589-600 | under the invariant, a settings change ends with exactly the configured event when enabled and with none when disabled, whatever was pending |
| `Reconciler.AtMostOnePreserved` | github-workflow-deploy.php:589-635 | deactivation, self-heal and settings change each keep at most one pending event |
| `Reconciler.WeeklyToDaily` | github-workflow-deploy.php:589-600 | switching from a pending weekly event to daily leaves exactly one daily event at the newly parsed time |
| `Reconciler.StaleEventWithoutInvariant` | github-workflow-deploy.php:589-600 | with two events pending, a settings change keeps the later stale event and creates nothing |

## Left out

- Settings pages, field rendering, section callbacks and the admin notice (github-workflow-deploy.php:120-201, 366-397, 511-559) are presentation only.
- The embedded jQuery deploy buttons and status polling (github-workflow-deploy.php:208-288) are browser code. The manual buttons post from the browser and never call `fire_github_deploy`, so `Dispatcher.FireGithubDeploy` does not describe them.
- Capabilities, menu and settings registration and the admin-bar node (github-workflow-deploy.php:290-337, 379-503, 566-578) only call WordPress APIs.
- The hook wiring in the constructor (github-workflow-deploy.php:43-77) is not modelled. The model claims nothing about which events reach which method. Line 75 names the future-post callback `' vb_webhook_future_post'` with a leading space, so WordPress cannot call it through that hook. `Trigger.VbWebhookFuturePost` models the method body only.
- The transport and the response of `wp_remote_post` are a network call. A deploy is modelled as the request it hands over, not as the response it returns.
- `strtotime` and the clock are a caller-supplied function, not PHP's date parser.
- WP-Cron is reduced to the `scheduled_build` events and to `wp_schedule_event`'s timestamp and recurrence checks. The `pre_schedule_event` and `schedule_event` filters, events of other hooks, running events and the core schedule list are not modelled. The registered names are a field of the store.
- PHP integers, floats, objects and arrays with string keys are not modelled as option or constant values. Options read back from the database are strings or arrays, and `get_option` yields `false` for an option never saved.
- The PHP notices that reading `$schedule[0]` or converting an array to a string can raise are not modelled. Only the resulting value is.
- The `display` labels of the custom recurrences are kept untranslated. The `__()` translation lookup is not modelled.
- The `'week'` default of the schedule select (github-workflow-deploy.php:437) only affects form rendering and is not a registered recurrence.
- The `$post` and `$post_id` arguments of the post hooks are never read and are not parameters of the model.

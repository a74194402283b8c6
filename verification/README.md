# Schocial Scheduler — a Dafny model of its decision logic

Schocial Scheduler is a WordPress plugin for scheduling posts to Facebook, X
(Twitter), LinkedIn and Instagram. This project models the four pieces of pure
decision logic that sit inside its WordPress and React plumbing. Each is
written as functions over finite maps and integers, with proofs of what the
plugin promises.

- **Settings** (`settings.dfy`, module `Settings`): the REST settings endpoint.
  POST keeps an allow-list of five request keys and replaces the stored option
  `schocial_settings` wholesale. GET always answers with those five keys.
  An unset or null API key reads as `''`. A missing `enabled_platforms` reads
  as all four platforms on.
- **Scheduling and dispatch** (`scheduler.dfy`, module `Scheduler`): the post-save
  hook turns the `_schocial_schedule` meta (`{platform -> datetime}`) into one
  delayed `wp_scheduled_schocial_post` event per non-empty datetime.
  It schedules nothing during an autosave or when the meta is empty.
  When an event fires, the dispatcher composes the message (title, a blank line,
  a thirty-word excerpt) and calls exactly one adapter for a known platform.
  It calls none for any other platform string.
- **Editor sidebar state** (`editor.dfy`, module `Editor`): reading the platform
  flags and schedule from the edited post meta, with all-off / all-null
  defaults. Also the meta edits sent by `togglePlatform` and `updateSchedule`.
- **LinkedIn token status** (`token_status.dfy`, module `TokenStatus`, with
  `decimal.dfy`, module `Decimal`): whole days to expiry, rounded toward minus
  infinity, bucketed into error / warning / success with a status text. Also
  the render guard and the reconnect paragraph.
- `values.dfy` (module `Values`) holds what these share: a JSON-shaped `Value`,
  PHP's `empty()` and `isset()`, JavaScript truthiness, the platform ids and
  the meta keys.
- `workflow.dfy` (module `Workflow`) connects the sidebar to the save hook.

Host facilities are parameters the model does not interpret: `strtotime`,
`get_post`, `wp_trim_words`, `get_permalink`, and the clock (`Date.now()`, as
`nowMs`). Whether an autosave is in progress (`DOING_AUTOSAVE`) and whether the
editor store exists are boolean parameters. The four `post_to_*` adapters are
empty in the plugin. Here they are the calls recorded in the dispatch result
(`AdapterCall`).

Modelling choices:
- PHP 8 semantics are assumed throughout the PHP code, although the plugin
  header also allows PHP 7.4. This covers `switch` comparisons, reading a
  property of null, and `strtotime`'s parameter type.
- A JavaScript object entry holding `undefined` is an absent key. JSON
  serialisation drops such entries, and no modelled code distinguishes the two.
- The editor store applies a meta edit by replacing the edited keys and keeping
  the rest (`Editor.ApplyEdit`).
- The cross-module lemmas (module `Workflow`) are about a save whose hook reads
  the `_schocial_schedule` object as the sidebar edited it. They speak only of
  the events that one save requests.
- A missing post (`get_post` returning null) reads as an empty title, which is
  how PHP 8 concatenates the null it reads from a property of null. The content
  then reaches `wp_trim_words` as null. As a modelling choice, the model passes
  `''` to the uninterpreted `trimWords` in its place.
- Strings are untranslated: `__()` is the identity.

Observations, not modelled further:
- `updateSchedule` spreads the sidebar object into the edit. So besides
  `_schocial_schedule` it writes two further meta keys, `platforms` and `schedule`
  (stated by `Editor.UpdateSchedule`).
- Only `_schocial_schedule` is registered as post meta in the PHP code. So the
  `_schocial_platforms` flags the sidebar writes are not known to be saved.
  In any case, scheduling never reads them (`Scheduler.SchedulingIgnoresOtherMeta`).
- The settings screen posts more keys than the five on the allow-list, for
  example `twitter_api_secret`. The endpoint drops them
  (`Settings.UnknownKeyDropped`).
- The settings screen hands the token-status notice the setting
  `linkedin_token_expires` (src/components/SettingsPage.js:452). The five-key
  GET never returns that key, and the screen replaces its state with the GET
  response (src/components/SettingsPage.js:173-175). So in the plugin as it
  stands, the notice always takes the "render nothing" branch of
  `TokenStatus.Render`.

## Model

| member | source | states |
|---|---|---|
| Settings.AllowListed | includes/class-schocial-settings.php:269-285 | every kept key is one of the five allow-listed keys and was in the request; every allow-listed request key is kept with its value unchanged |
| Settings.UpdateSettings | includes/class-schocial-settings.php:267-289 | the new option is exactly the allow-listed part of the request, whatever was stored before: only allow-listed request keys, each with its value unchanged; a previously stored key absent from the request is gone; the response is the stored option |
| Settings.GetSettings | includes/class-schocial-settings.php:229-256 | the response has exactly the five keys and never a null value; a set key reads back as stored; an unset API key reads as `''`; an unset `enabled_platforms` reads as all four platforms true |
| Settings.AllowListIdempotent | includes/class-schocial-settings.php:269-285 | filtering an already filtered request returns it unchanged |
| Settings.GetResponseIsFixedPoint | includes/class-schocial-settings.php:229-289 | a GET response is already allow-listed, and posting it back then reading gives the same response, whatever was stored before |
| Settings.SaveThenRead | includes/class-schocial-settings.php:229-288 | after a save, each allow-listed key posted non-null reads back with its posted value and the others read as defaults; the read equals reading the raw request, so the filter and the old option are invisible |
| Settings.StoredKeysReadBack | tests/php/SchocialSettingsTest.php:18-33 | with `facebook_api_key` and `twitter_api_key` stored, both are in the response, `facebook_api_key` reads `test_key`, and the unset keys read as their defaults |
| Settings.UnknownKeyDropped | includes/class-schocial-settings.php:269-287 | a request key outside the allow-list (`twitter_api_secret`) is never stored |
| Scheduler.ScheduledEvents | schocial-scheduler.php:48-63 | no event during autosave or for empty schedule meta; otherwise each event occurs exactly once if it names the post, the publish hook, a platform whose datetime is non-empty under PHP `empty()`, and that datetime's `strtotime` value, and zero times otherwise |
| Scheduler.SaveScheduleData | schocial-scheduler.php:48-63 | the `foreach` over the schedule entries, visiting them in any order, requests exactly the events of `ScheduledEvents` |
| Scheduler.SchedulingIgnoresOtherMeta | schocial-scheduler.php:51-62 | changing any post-meta key other than `_schocial_schedule`, such as the platform flags, leaves the scheduled events unchanged |
| Scheduler.PublishToSocial | schocial-scheduler.php:65-84 | a known platform gets exactly one call, to its own adapter, and an unknown platform string gets none; the call carries the composed message, and every adapter but Instagram's also gets the permalink |
| Scheduler.MessageShape | schocial-scheduler.php:66-67 | the message is the post title, then `"\n\n"`, then the content trimmed to thirty words, so the title is its prefix |
| Scheduler.FiredEventReachesItsAdapter | schocial-scheduler.php:54-84 | firing any scheduled event for a known platform calls exactly that platform's adapter, for the post that was saved |
| Editor.ReadSidebar | src/index.js:17-44 | without the editor store both objects are empty; each meta key is read on its own: when it is absent or falsy (null, false, 0, '') its flags default to all false or its schedule to all null, and an object stored under it is read as is |
| Editor.DefaultsWhenMetaMissing | src/index.js:26-41 | when neither meta key is present, exactly the four platforms appear, each with flag false and datetime null |
| Editor.UpdateSchedule | src/index.js:55-67 | the edit sets `schedule[platform]` to the datetime, keeps every other platform's entry, never touches the platform flags, and carries the spread `platforms` and `schedule` keys |
| Editor.TogglePlatform | src/index.js:69-87 | the edit sets `platforms[platform]` to the chosen flag and keeps the other flags; disabling sets `schedule[platform]` to null, enabling keeps its previous value; other schedule entries are unchanged |
| Editor.ToggleThenRead | src/index.js:69-87 | reading back after a toggle gives the old flags with only this platform's changed, and the old schedule with this platform nulled when disabled or unchanged when enabled |
| Editor.UpdateThenRead | src/index.js:55-67 | reading back after picking a datetime gives the old schedule with only that platform's entry replaced, and the flags unchanged |
| Workflow.DisabledPlatformNotScheduled | src/index.js:75-79 | once a platform is switched off in the sidebar, a save whose hook reads the edited schedule requests no new event for it |
| Workflow.PickedDatetimeScheduledOnce | schocial-scheduler.php:54-62 | after a non-empty datetime is picked for a platform, a regular save whose hook reads the edited schedule requests exactly one new event for it at that time, and for other platforms exactly what the sidebar's schedule calls for |
| TokenStatus.NowSeconds | src/components/LinkedInTokenStatus.js:16 | the current second is the milliseconds clock rounded down to whole seconds |
| TokenStatus.DaysRemaining | src/components/LinkedInTokenStatus.js:17-18 | the result is the floor of the time left over 86400: that many whole days fit, one more does not; negative after expiry |
| TokenStatus.StatusFor | src/components/LinkedInTokenStatus.js:20-32 | error exactly for negative days, warning exactly for 0 to 7 days, success exactly from 8 days |
| TokenStatus.CalculateStatusAsWritten | src/components/LinkedInTokenStatus.js:11-34 | error exactly when expiry is before the current second, warning exactly within the next eight days, success from then on; "expired", "today" and "tomorrow" texts exactly for their time windows, and the raw template exactly from two days on |
| TokenStatus.AsWrittenDiffersOnlyInDaysText | src/components/LinkedInTokenStatus.js:20-33 | the component as written and the corrected reading always agree on the status, and agree on the text exactly when fewer than two days remain |
| TokenStatus.CalculateStatus | src/components/LinkedInTokenStatus.js:11-34 | error exactly when expiry is before the current second, warning exactly within the next eight days, success from then on; "today", "tomorrow" and "expired" texts exactly for their time windows |
| TokenStatus.Render | src/components/LinkedInTokenStatus.js:41-78 | nothing is rendered exactly when the timestamp is absent or zero; otherwise the notice shows the status and text the component calculates, the template included, and the reconnect paragraph appears exactly when the status is not success, that is, exactly while the expiry is less than eight days past the current second |
| TokenStatus.RenderCorrected | src/components/LinkedInTokenStatus.js:41-78 | the render with the day count substituted: rendered exactly when `Render` is, with the same status and reconnect paragraph, and the corrected text |
| TokenStatus.OneSecondPastExpiry | src/components/LinkedInTokenStatus.js:16-22 | a token one second past expiry has -1 days left and status error |
| TokenStatus.LaterExpiryNotWorse | src/components/LinkedInTokenStatus.js:17-32 | for a fixed clock, a later expiry never gives a more severe status |
| TokenStatus.LaterClockNotBetter | src/components/LinkedInTokenStatus.js:16-38 | for a fixed expiry, a later clock reading, as on an hourly refresh, never gives a less severe status |
| TokenStatus.TemplateNeverSubstituted | src/components/LinkedInTokenStatus.js:29-31 | as written, five and six days left show the same text, and it still contains `%` |
| TokenStatus.DayCountRecoverable | src/components/LinkedInTokenStatus.js:29-31 | with substitution, the text for two or more days is the prefix, the decimal day count with no leading zero, and the suffix; the digits parse back to the day count, and no `%` remains |
| Decimal.NatToString | src/components/LinkedInTokenStatus.js:30-31 | the rendering of a day count for `%d` is non-empty, all decimal digits, is `0` exactly for zero and otherwise has no leading zero |
| Decimal.StringToNatInverse | src/components/LinkedInTokenStatus.js:30-31 | parsing the rendered digits gives the day count back |

## Left out

- Hook, route, setting, post-meta, menu and script registration: host wiring with no decision logic.
- Permission callbacks (`manage_options`, `edit_posts`): host capability checks.
- The four `post_to_*` adapters are empty in the plugin. They appear only as the recorded calls of `Scheduler.AdapterCall`.
- Platform features with no code in the modelled files: tweet truncation, LinkedIn OAuth, credential validation, post-now and test-post endpoints, the dispatch log.
- `strtotime`, `wp_trim_words`, `get_permalink`, `get_post` and `Date.now` are uninterpreted parameters. What the host's scheduler does with an unparsable (`false`) timestamp is not modelled; the event request is recorded as made.
- React rendering, the settings screen, the platform panels and the post-now and test-post buttons: UI and network calls.
- The hourly `setInterval` refresh (src/components/LinkedInTokenStatus.js:37-38) is a timer side effect. Each refresh is one more call with a later clock, which `TokenStatus.LaterClockNotBetter` covers.
- The first paint, before the effect has run, shows the initial `success` state with an empty text. The model describes the render after the effect.
- `TokenStatus.Render`: the timestamp is a number or absent. A string timestamp (JavaScript would coerce it) and `NaN` are not modelled.
- `Editor.ReadSidebar`: a truthy non-object value under a meta key reads as the empty object. JavaScript would keep the scalar. The host only supplies objects for these keys.
- Floating-point values in the meta are not modelled. Numbers are integers.
- Scheduler.ScheduledEvents: a non-empty array or object datetime is not modelled as PHP 8 runs it. There `strtotime` throws a type error at schocial-scheduler.php:57, which ends the loop and the save; events already requested stay requested. The model records an event for it with `strToTime` applied. The sidebar only writes strings or null there. Because the loop order is not modelled, the partial set of events before the throw could not be stated. `Scheduler.SaveScheduleData` inherits this.
- Workflow.DisabledPlatformNotScheduled: the block editor's save is not modelled. WordPress fires `save_post` inside the post update, before it writes the request's meta, so on that save the hook may read the previously stored schedule. The lemma holds for a save whose hook reads the edited schedule. The plugin also never unschedules anything: an event requested by an earlier save stays queued. So "no new event" does not mean the platform will not be posted to.
- Workflow.PickedDatetimeScheduledOnce: the same host ordering as above applies. Because nothing is unscheduled, picking a new datetime leaves the event requested for the earlier datetime queued, so the platform can be posted at both times.
- Scheduler.PublishToSocial: PHP 7 behaviour is not modelled. PHP turns a numeric schedule key such as `"0"` into the integer `0`, so the event is requested with platform `0`. Under PHP 7.4, the loose `switch` match at schocial-scheduler.php:70-71 finds `0 == 'facebook'` true and calls the Facebook adapter. Under PHP 8, which the model follows, no adapter is called. The model also keeps the key as the string `"0"`.
- PHP array order is not modelled, so the order in which events are requested is not fixed. The result is a multiset.
- Build and test configuration, and the JavaScript tests that import modules missing from the repository.

## Findings

| source | as written | input that shows it | evidently intended | confidence | as-written member | corrected member |
|---|---|---|---|---|---|---|
| src/components/LinkedInTokenStatus.js:29-31 | the day count is passed as a second argument to the state setter, which ignores it, so the text keeps the `%d` placeholder | a token expiring five days from now shows "Token expires in %d days", the same text as for six days | the day count substituted for `%d` (the translators' comment names it), giving "Token expires in 5 days" | high; not executed | TokenStatus.CalculateStatusAsWritten | TokenStatus.CalculateStatus |

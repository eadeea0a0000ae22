# Java uploader notifier — a verified model

The plugin listens for the host's notice events. When a media file has been
organised (an *Organize* notice), it builds a JSON payload that describes the
media and the transfer. It posts the payload to a configured uploader
endpoint, retrying a bounded number of times with a fixed pause between
attempts. It keeps two things in the host's key/value store:

- delivery counters `{total, success, failed}`;
- a log of the 100 most recent pushes.

This project models that core as pure Dafny functions over immutable values:

- `Config`: `init_plugin`'s settings normalisation. Trailing slashes are
  stripped from the URL; the defaults are retry 3, timeout 10 and
  only-success on.
- `Stats`: `_update_stats` and the `total == success + failed` invariant.
- `RecentLog`: `_save_recent_push`, which appends and then keeps the newest 100.
- `Delivery`: `_push_to_api`'s retry loop. The network is a finite script of
  attempt outcomes (`Response(status, jsonBody)`, `Timeout`,
  `ConnectionError`, `OtherError`). Attempts past the end of the script get
  no answer. The loop is modelled twice:
  - `PushToApi` returns the ordered steps: POSTs, pauses and the single
    stats update;
  - `PushLoop` is a method that mirrors the `while` loop itself.
- `Payload`: the field derivations of `_process_transfer_push`. These are
  the target-path, title, year and type fallbacks, the file list and count,
  and the `success` default. The one way building the payload can raise is
  reading `.value` off a type attribute that is not an enum member.
- `Notifier`: the `on_notice_message` gate and the bookkeeping around a
  push (a normal return versus a raised exception). It also models the
  guard and classification of `test_connection`.

Two behaviours of the code are worth knowing, and the model keeps both as
written:

- After `_push_to_api` returns, the push is logged with `success: True`, even
  when every attempt failed and the counters recorded a failure
  (`Notifier.LoggedSuccessAfterFailedDelivery`).
- With `only_success` on, a transfer result that has no `success` attribute
  raises in the gate. The handler's catch-all then counts one failure, and
  nothing is posted or logged.

A negative `retry_times` makes the loop body never run: no POST, one failure
counted.

## Model

| member | source | states |
|---|---|---|
| Config.StripTrailingSlashes | plugins.v2/javauploadernotifier/__init__.py:57 | the result is a prefix of the URL, everything cut off is a slash, and the result does not end in a slash |
| Config.StripTrailingSlashesUnique | plugins.v2/javauploadernotifier/__init__.py:57 | those three properties determine the stripped URL uniquely |
| Config.StripTrailingSlashesIdempotent | plugins.v2/javauploadernotifier/__init__.py:57 | stripping an already stripped URL changes nothing |
| Config.Init | plugins.v2/javauploadernotifier/__init__.py:55-63 | a falsy config keeps the current settings; otherwise the URL is the stripped configured URL, each present key's value is adopted, and each absent key takes its default (disabled, empty token, only-success on, retry 3, timeout 10, notify-immediately and test mode off) |
| Config.InitIgnoresCurrent | plugins.v2/javauploadernotifier/__init__.py:55-63 | a non-empty config fully determines the settings, whatever was set before |
| Config.InitWithoutKeysIsDefaults | plugins.v2/javauploadernotifier/__init__.py:42-63 | a config with none of the plugin's keys yields exactly the class defaults |
| Config.InitUrlStable | plugins.v2/javauploadernotifier/__init__.py:57 | initialising again with the stored URL keeps that URL |
| Stats.UpdateStats | plugins.v2/javauploadernotifier/__init__.py:916-929 | missing counters start from zero; `total` grows by one and each flagged counter by one |
| Stats.Record | plugins.v2/javauploadernotifier/__init__.py:916-927 | with exactly one flag, `total` and exactly one of `success`/`failed` grow by one, and the balance invariant holds after iff it held before |
| Stats.NoFlagUnbalances | plugins.v2/javauploadernotifier/__init__.py:916-926 | an update with neither flag would break `total == success + failed` on balanced counters |
| Stats.RecordAllTallies | plugins.v2/javauploadernotifier/__init__.py:916-927 | after a run of updates, each counter has grown by the number of matching outcomes |
| Stats.RecordAllSplitsOutcomes | plugins.v2/javauploadernotifier/__init__.py:916-927 | over any run of updates, `success + failed` grows by exactly the number of updates |
| Stats.RecordAllBalanced | plugins.v2/javauploadernotifier/__init__.py:916-927 | `total == success + failed` survives any run of updates |
| RecentLog.SaveRecentPush | plugins.v2/javauploadernotifier/__init__.py:931-943 | the new length is min(old + 1, 100), the last entry is the new record, and the log is the newest-100 suffix of old ++ [new] |
| RecentLog.SaveAllKeepsNewest | plugins.v2/javauploadernotifier/__init__.py:936-941 | any run of saves leaves the newest 100 records ever appended, in insertion order |
| RecentLog.HundredAndFiveSaves | plugins.v2/javauploadernotifier/__init__.py:936-941 | after 105 saves into an empty log, the oldest 5 are evicted and the rest keep their order |
| RecentLog.SaveAllBounded | plugins.v2/javauploadernotifier/__init__.py:938-941 | a log within capacity never grows past 100 |
| Delivery.StepsFrom | plugins.v2/javauploadernotifier/__init__.py:859-908 | from retry count i the loop posts attempt i first, makes no stats update before its last step, and ends with the outcome the first 200 at or after i determines |
| Delivery.PushToApi | plugins.v2/javauploadernotifier/__init__.py:846-914 | a call's steps start with POST 0 when the limit is non-negative and end with the single stats update, which records the delivery outcome |
| Delivery.FirstDelivered | plugins.v2/javauploadernotifier/__init__.py:859-889 | finds the first attempt within the retry limit that gets HTTP 200, or reports that none does |
| Delivery.DeliveryOutcome | plugins.v2/javauploadernotifier/__init__.py:879-914 | a delivery succeeds iff some attempt numbered 0..retry_times gets HTTP 200 |
| Delivery.StepsFromCounts | plugins.v2/javauploadernotifier/__init__.py:859-914 | from any retry count, the remaining steps make one stats update, last, and POSTs and pauses determined by the first 200 |
| Delivery.PushToApiCounts | plugins.v2/javauploadernotifier/__init__.py:846-914 | a call makes k+1 POSTs and k pauses when attempt k is the first 200, otherwise retry_times+1 POSTs and retry_times pauses; exactly one stats update, as the last step |
| Delivery.AllFailing | plugins.v2/javauploadernotifier/__init__.py:859-914 | an endpoint that never answers 200 gets R+1 POSTs and R pauses, followed by one failure update |
| Delivery.FirstSuccessStops | plugins.v2/javauploadernotifier/__init__.py:879-889 | the first 200 at attempt k stops the loop after k+1 POSTs with one success update |
| Delivery.StepsFromShape | plugins.v2/javauploadernotifier/__init__.py:904-908 | POSTs numbered 0, 1, 2, … alternate with pauses until the final update |
| Delivery.PausesBetweenPosts | plugins.v2/javauploadernotifier/__init__.py:904-908 | a pause is always preceded and followed by a POST |
| Delivery.OnlyDeliveredMatters | plugins.v2/javauploadernotifier/__init__.py:879-902 | non-200 statuses, timeouts, connection errors and other exceptions are handled identically |
| Delivery.PushLoop | plugins.v2/javauploadernotifier/__init__.py:850-914 | the `while` loop as written makes as many POSTs and pauses as the step sequence of `PushToApi`, and ends with the same outcome: success iff an attempt within the limit gets 200 |
| Payload.TargetPath | plugins.v2/javauploadernotifier/__init__.py:742-746 | the file item's path if set, else the directory item's, and empty exactly when neither is set |
| Payload.TransferHistoryId | plugins.v2/javauploadernotifier/__init__.py:818-844 | no lookup without a target path; with one, the id is exactly the lookup's answer for that path |
| Payload.Title | plugins.v2/javauploadernotifier/__init__.py:756 | media title if there is media, else the metadata name, else empty |
| Payload.Year | plugins.v2/javauploadernotifier/__init__.py:757 | a non-empty media year, else the metadata year, else empty when neither has one |
| Payload.MediaTypeValue | plugins.v2/javauploadernotifier/__init__.py:758 | the media type's value when media has a type, else the metadata type's value, else "未知"; raises exactly when the chosen attribute is not an enum member |
| Payload.FileList | plugins.v2/javauploadernotifier/__init__.py:749-751 | the new-file list when present, else empty |
| Payload.BuildPayload | plugins.v2/javauploadernotifier/__init__.py:754-779 | raises exactly when the type does; otherwise carries the chosen type, title, year, target path, file list with `fileCount == len(fileList)`, the history id, timestamp, season label and user unchanged, `fileSize` defaulting to 0, `message` to "", `success` to true; `season`/`episode` from the metadata, and the four ids, category, rating, overview, poster and backdrop from the media, each null when its source object is missing |
| Payload.FullEventRoundTrip | plugins.v2/javauploadernotifier/__init__.py:754-779 | a fully populated event's values all reach the payload unchanged, including category, vote average, overview, poster, backdrop and timestamp |
| Payload.MetaFallback | plugins.v2/javauploadernotifier/__init__.py:756-757 | without media, title and year come from the metadata |
| Notifier.ProcessTransferPush | plugins.v2/javauploadernotifier/__init__.py:728-816 | one stats update per call and one record appended to the log through `SaveRecentPush`, keeping the earlier records within the 100 bound; a built payload is the one pushed, the steps are exactly `PushToApi`'s, the counters record the delivery outcome and the log title is the payload title, with `success: True`; a raising build pushes nothing, counts a failure and logs the media title (or "N/A") with `success: False` |
| Notifier.OnNoticeMessage | plugins.v2/javauploadernotifier/__init__.py:628-698 | a skipped event changes nothing; any other event is counted once: a transfer without `success` under only-success counts one failure and pushes and logs nothing, every other one is handed to `ProcessTransferPush`; balance and the log bound are preserved |
| Notifier.Skipped | plugins.v2/javauploadernotifier/__init__.py:633-691 | the gate's six silent-skip conditions: disabled, URL or token empty, no event data, not an Organize notice, no transferinfo, or a failed transfer under only-success |
| Notifier.GateUnchangedIff | plugins.v2/javauploadernotifier/__init__.py:633-691 | an event leaves store and network untouched iff it is disabled, unconfigured, empty, not Organize, missing transferinfo, or failed under only-success |
| Notifier.NonOrganizeNeverPosts | plugins.v2/javauploadernotifier/__init__.py:650-655 | a non-Organize notice never posts and never changes the store |
| Notifier.OnlySuccessDecides | plugins.v2/javauploadernotifier/__init__.py:688-694 | a failed organise is posted iff only-success is off |
| Notifier.LoggedSuccessAfterFailedDelivery | plugins.v2/javauploadernotifier/__init__.py:796-804 | a push whose delivery failed is still logged as a success while the counters record a failure |
| Notifier.FirstAttemptDelivers | plugins.v2/javauploadernotifier/__init__.py:869-889 | a 200 on the first attempt posts once, pauses never and counts one success |
| Notifier.TimeoutsExhaustRetries | plugins.v2/javauploadernotifier/__init__.py:859-914 | two retries against an endpoint that always times out give 3 POSTs, 2 pauses and one failure |
| Notifier.SlashOnlyUrlDisables | plugins.v2/javauploadernotifier/__init__.py:638-641 | a URL of only slashes strips to empty, so the gate ignores every event and the probe does not post |
| Notifier.TestConnection | plugins.v2/javauploadernotifier/__init__.py:104-151 | no request without URL and token; otherwise a POST to `<url>/test` that succeeds iff the answer is 200 with a JSON body |

## Left out

- HTTP requests, response text and the response's JSON content: each POST is an abstract `Attempt` taken from a script. Only whether the body parses is kept.
- `time.sleep(2)` and the timestamps from `datetime.now()`: a pause is a `Pause` step, and the two clock readings are inputs (`Host.isoNow`, `Host.localNow`).
- The per-request `timeout` and the worst-case blocking time it implies: the settings carry `timeout`, but attempt durations are not modelled.
- All logging, and the `test_mode` and `notify_immediately` flags, which only affect logging or nothing at all.
- `get_data`/`save_data`: the store is an in-memory value. Failures inside `_update_stats`/`_save_recent_push` (caught and logged) are not modelled.
- `TransferHistoryOper.get_by_dest`: the database lookup is a function parameter. Its exceptions, which `_get_transfer_history_id` swallows, read as "not found".
- The `int(...)` conversion of `retry_times`/`timeout` in `init_plugin`: the configuration already holds integers, so a non-numeric value that would raise is not represented.
- Python `None` stored in a value versus a missing one: both are `None` in the model, except for type attributes. This affects several places:
  - a metadata object whose `year` is `None` would be stringified as "None"; the model treats it like one without a year;
  - a configuration key holding `None` is treated as absent. In the code, `only_success: None` is falsy, so failed transfers are pushed, where the model uses the default `true`. `api_url: None` raises `AttributeError` in `init_plugin`, where the model gives "";
  - a transfer result whose `success` holds `None` is treated like one without the attribute. With only-success on, the code skips it silently because `not None` is true, where the model raises and counts one failure. With only-success off, the code posts `"success": null`, where the model posts `true`;
  - `MediaInfo.title` is a plain string, so a media object whose title is `None`, which yields a null payload title, is not represented.
- `get_form`, `get_page` (including the float success rate and the last-10 table), `get_command`, `get_api`, `handle_plugin_action`, `post_message`, `get_service`, `stop_service`: host UI and registration glue.
- Concurrent handling of several events and the read-modify-write race on the counters: the model is sequential.

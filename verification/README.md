# Beacon list presenter — a Dafny model

The model covers the decision core of the beacon scanner's list screen presenter,
`BeaconListPresenter`. That core has four parts:

- **Classification.** A ranging event's raw beacon observations are turned into
  `BeaconSaved` records. The kind is Eddystone-UID, Eddystone-URL, AltBeacon or iBeacon.
  Telemetry is read when present.
- **Storing.** The records are upserted into the store in one write transaction, keyed
  by the beacon's identity hash.
- **Webhook logging.** A tick counter decides when to flush. A flush POSTs the records
  seen since the previous flush. A failed POST is retried with waits of 4, 16 and 64
  seconds, and the fourth failure is reported to the user.
- **Lifecycle and rating.** The scan lifecycle is start, stop, bluetooth changes and
  teardown. The rating dialog has two steps.

Modules:

- `BeaconRecords` (`records.dfy`): the observation and record datatypes and the pure
  classification `Classify`. `lastMinuteSeen` uses JVM `Long` division.
- `BeaconStore` (`store.dfy`): the table as a `map<int, BeaconSaved>`.
  - `ClassifyAll`, `UpsertAll` and `StoreBatch` specify one ranging event's transaction.
  - `ApplyBatch` is the transaction's loop, proved against `StoreBatch`.
  - `Window` is the query behind a flush.
- `WebhookLogging` (`logging.dfy`): the flush cadence over a 32-bit `Int` counter that
  wraps around, and the request body.
- `RetrySchedule` (`retry.dfy`): the POST-and-retry chain.
  - `RetryTrace` specifies it.
  - `PostLogsWithRetry` is the counter-driven loop, proved against `RetryTrace`.
- `View` (`view.dfy`) records the calls the presenter makes on its view. `Rating`
  (`rating.dfy`) models the rating dialog's replies.
- `BeaconListPresenter` (`presenter.dfy`): the class `Presenter`.
  - Its fields are the presenter's own state: the range, bluetooth and results
    subscriptions, and `numberOfScansSinceLog`.
  - Its other fields stand for what it drives: the table, the preferences, the rating
    helper, the beacon manager with its bind and unbind calls, the view calls, and the
    deliveries.
  - Each method is written as the source method is. Its `ensures` ties the new
    `State()` to a transition function (`AfterStartScan`, `AfterStop`,
    `AfterRangeEvent`, …) of the old one.
  - The lifecycle properties are lemmas over those transition functions.

Inputs the presenter does not compute are parameters:

- the clock (`now`, read once per event);
- whether the view holds the location permission;
- whether bluetooth is enabled;
- the rating helper's `shouldShowRatingRationale`;
- whether a permission was permanently denied;
- the transport's answer to each POST (`succeeds(i)`, the answer to the POST made after
  `i` failures).

Two library calls are values rather than code:

- `Beacon.hashCode()` is carried in the observation as `hashCode`.
- The Eddystone-URL decompressor is a function-valued parameter, `uncompress`.

Behaviours of the code that a reader might not expect, each proved as stated:

- The flush cursor `lasLoggingCall` is set to the flush time before the POST, whatever
  becomes of the delivery. The records of an abandoned delivery do not qualify for the
  next window (`WindowAfterFlushIsEmpty`, `FlushOutcome`).
- The window of a flush is queried before the ranging event that triggers it is stored,
  and the cursor then moves to that event's time. A beacon first seen in that event is in
  neither that request nor the next window until it is seen again
  (`FlushingTickBeaconInNoWindow`).
- A beacon that cannot be decoded is not skipped:
  - An Eddystone frame of another sub-type is stored, without a type.
  - A missing telemetry field or identifier throws inside the write transaction, so
    nothing of that ranging event is stored (`StoreBatch`, `ApplyBatch`).
- A failed `startScan` precondition is not silent. It makes one view call
  (`StartScanPreconditions`).
- Flushes are not coalesced. Each flush issues its own request.
- The counter counts only while logging is enabled and an endpoint is set, because the
  increment sits inside a short-circuit condition. If the frequency is lowered below the
  current count, no flush happens until the counter wraps (`CounterPastFrequencyStalls`).
- `stop()` is not idempotent. A second teardown saves "not scanning" over the flag the
  first one saved, so a presenter that was scanning no longer resumes on reopen unless
  scan-on-open is set (`StopTwice`, `DoubleStopForgetsScan`).

## Model

| member | source | states |
|---|---|---|
| BeaconRecords.MinuteOf | app/src/main/java/com/bridou_n/beaconscanner/features/beaconList/BeaconListPresenter.kt:190 | `now / 1000 / 60` with truncating `Long` division equals `now / 60000` for a non-negative timestamp, and brackets it: `m*60000 <= now < (m+1)*60000` |
| BeaconRecords.MinuteMonotone | app/src/main/java/com/bridou_n/beaconscanner/features/beaconList/BeaconListPresenter.kt:189-190 | a later timestamp never falls in an earlier minute bucket (all integers, negative included) |
| BeaconRecords.Classify | app/src/main/java/com/bridou_n/beaconscanner/features/beaconList/BeaconListPresenter.kt:185-227 | a record is produced iff the observation is readable, under the observation's identity hash, stamped with `now` and its minute. Telemetry is read before the identifiers: an Eddystone frame with 1 to 4 extra-data fields fails at the first missing index. A missing identifier fails at the index one past the last identifier |
| BeaconRecords.ClassifyFields | app/src/main/java/com/bridou_n/beaconscanner/features/beaconList/BeaconListPresenter.kt:185-227 | for a readable observation, the common fields are copied. Telemetry is present iff Eddystone (0xFEAA) with a non-empty extra-data list, with fields 0..4 in order. Type is UID iff 0xFEAA/0x00 (namespace = id1, instance = id2), URL iff 0xFEAA/0x10 (url = uncompress(id1)), AltBeacon iff not Eddystone with 0xBEAC, iBeacon iff not Eddystone otherwise (uuid/major/minor = id1/id2/id3); the other payload fields stay empty. Any other Eddystone sub-type is stored with no type and no payload |
| BeaconRecords.SignalOnlyChangesSignalFields | app/src/main/java/com/bridou_n/beaconscanner/features/beaconList/BeaconListPresenter.kt:188-195 | two observations of one beacon that differ only in rssi and distance give records that differ only in those fields |
| BeaconStore.ClassifyAll | app/src/main/java/com/bridou_n/beaconscanner/features/beaconList/BeaconListPresenter.kt:184-227 | a whole event classifies iff every beacon is readable, into one record per beacon, the i-th under the i-th beacon's hash |
| BeaconStore.ClassifyAllPointwise | app/src/main/java/com/bridou_n/beaconscanner/features/beaconList/BeaconListPresenter.kt:184-227 | a classified event holds at index i exactly the record of the i-th beacon |
| BeaconStore.ClassifyAllFirstError | app/src/main/java/com/bridou_n/beaconscanner/features/beaconList/BeaconListPresenter.kt:184-227 | an event that fails carries the error of an unreadable beacon all of whose predecessors are readable, so the first one in order |
| BeaconStore.UpsertAll | app/src/main/java/com/bridou_n/beaconscanner/features/beaconList/BeaconListPresenter.kt:236 | after `copyToRealmOrUpdate` of each record in turn, the keys are the old keys plus the records' hashes, and every key the records do not touch keeps its old record |
| BeaconStore.UpsertAllTakesFromBatch | app/src/main/java/com/bridou_n/beaconscanner/features/beaconList/BeaconListPresenter.kt:236 | every key the records touch holds one of those records, whose hash is that key |
| BeaconStore.UpsertAllKeepsLast | app/src/main/java/com/bridou_n/beaconscanner/features/beaconList/BeaconListPresenter.kt:236 | a record that no later record shares a hash with is the one stored under its hash |
| BeaconStore.StoreBatch | app/src/main/java/com/bridou_n/beaconscanner/features/beaconList/BeaconListPresenter.kt:183-238 | one ranging event commits iff every beacon is readable, and then the keys are the old keys plus the event's hashes |
| BeaconStore.ApplyBatch | app/src/main/java/com/bridou_n/beaconscanner/features/beaconList/BeaconListPresenter.kt:183-238 | the transaction's loop gives exactly `StoreBatch`: all records upserted, or the first failing beacon's error with nothing committed |
| BeaconStore.BatchStoresEveryBeacon | app/src/main/java/com/bridou_n/beaconscanner/features/beaconList/BeaconListPresenter.kt:184-190 | after a committed event the table's keys are the old keys plus the event's hashes. Untouched keys keep their records, every observed beacon's record has `lastSeen == now` and the minute of `now`, and each record stays under its own hash |
| BeaconStore.LaterBeaconWins | app/src/main/java/com/bridou_n/beaconscanner/features/beaconList/BeaconListPresenter.kt:184-236 | within one event, the stored record of a hash is that of the last beacon with that hash |
| BeaconStore.BatchIdempotent | app/src/main/java/com/bridou_n/beaconscanner/features/beaconList/BeaconListPresenter.kt:183-238 | storing the same event twice at the same time leaves the table as storing it once |
| BeaconStore.SingleBeaconBatch | app/src/main/java/com/bridou_n/beaconscanner/features/beaconList/BeaconListPresenter.kt:184-236 | an event of one readable beacon upserts exactly its record under its hash and changes nothing else |
| BeaconStore.SameIdentityOneRecord | app/src/main/java/com/bridou_n/beaconscanner/features/beaconList/BeaconListPresenter.kt:184-236 | two observations of one identity in one event leave one record, the later observation's |
| BeaconStore.ReobservationRefreshesMinute | app/src/main/java/com/bridou_n/beaconscanner/features/beaconList/BeaconListPresenter.kt:189-190 | seeing a beacon again later adds no key and never moves its record to an earlier minute |
| BeaconStore.Window | app/src/main/java/com/bridou_n/beaconscanner/features/beaconList/BeaconListPresenter.kt:244 | the flushed records are exactly the stored records with `lastSeen > lasLoggingCall`, unchanged |
| BeaconStore.ObservedAfterFlushIsInNextWindow | app/src/main/java/com/bridou_n/beaconscanner/features/beaconList/BeaconListPresenter.kt:244-251 | every beacon of an event stored at a time later than the flush's is in the next flush's window |
| BeaconStore.WindowAfterFlushIsEmpty | app/src/main/java/com/bridou_n/beaconscanner/features/beaconList/BeaconListPresenter.kt:244-251 | once the cursor is past every record, the next window is empty even if the previous delivery was abandoned |
| BeaconStore.ClearThenStore | app/src/main/java/com/bridou_n/beaconscanner/features/beaconList/BeaconListPresenter.kt:305-307 | after the table is cleared, storing an event leaves exactly that event's hashes |
| WebhookLogging.DisabledNeverCounts | app/src/main/java/com/bridou_n/beaconscanner/features/beaconList/BeaconListPresenter.kt:242-243 | with logging disabled or no endpoint, the counter does not move and nothing flushes |
| WebhookLogging.Inc32Wraps | app/src/main/java/com/bridou_n/beaconscanner/features/beaconList/BeaconListPresenter.kt:243 | `++` on an `Int` is `x + 1` modulo 2^32, and the plain successor below `Int.MAX_VALUE` |
| WebhookLogging.CadenceDecides | app/src/main/java/com/bridou_n/beaconscanner/features/beaconList/BeaconListPresenter.kt:242-243 | a flush happens only while logging is enabled with an endpoint, exactly when the incremented counter equals the frequency, and leaves 0. A tick that does not flush leaves the counter incremented, or untouched while logging is off |
| WebhookLogging.DeviceLabel | app/src/main/java/com/bridou_n/beaconscanner/features/beaconList/BeaconListPresenter.kt:255 | the request carries the device name when one is set, and "" otherwise |
| WebhookLogging.PeriodicFlush | app/src/main/java/com/bridou_n/beaconscanner/features/beaconList/BeaconListPresenter.kt:242-277 | from 0, after `q*frequency + r` counted events the counter is `r` and exactly `q` flushes have happened |
| WebhookLogging.FrequencyFiveScenario | app/src/main/java/com/bridou_n/beaconscanner/features/beaconList/BeaconListPresenter.kt:242-277 | with frequency 5, ticks 1-4 do not flush and tick 5 flushes once and resets the counter to 0 |
| WebhookLogging.CounterPastFrequencyStalls | app/src/main/java/com/bridou_n/beaconscanner/features/beaconList/BeaconListPresenter.kt:243 | a counter at or past the frequency counts on without flushing until it wraps |
| RetrySchedule.RetryTraceShape | app/src/main/java/com/bridou_n/beaconscanner/features/beaconList/BeaconListPresenter.kt:258-272 | a delivery starts with a POST, ends with a POST or the give-up, never with a wait, and has at most two events per remaining attempt |
| RetrySchedule.RetryPostsBound | app/src/main/java/com/bridou_n/beaconscanner/features/beaconList/BeaconListPresenter.kt:57-272 | a delivery makes at most MAX_RETRIES + 1 = 4 POSTs |
| RetrySchedule.RetryGivesUpOnlyWhenAllFail | app/src/main/java/com/bridou_n/beaconscanner/features/beaconList/BeaconListPresenter.kt:258-272 | the delivery ends with the error iff every POST fails. The error is its last event and occurs nowhere else; otherwise it ends with the POST that succeeded |
| RetrySchedule.GiveUpIffAllFail | app/src/main/java/com/bridou_n/beaconscanner/features/beaconList/BeaconListPresenter.kt:258-272 | a delivery contains the error iff each of its MAX_RETRIES + 1 POSTs fails |
| RetrySchedule.PermanentFailureSchedule | app/src/main/java/com/bridou_n/beaconscanner/features/beaconList/BeaconListPresenter.kt:258-272 | against an endpoint that always fails: POST, wait 4, POST, wait 16, POST, wait 64, POST, give up |
| RetrySchedule.PostLogsWithRetry | app/src/main/java/com/bridou_n/beaconscanner/features/beaconList/BeaconListPresenter.kt:257-275 | the counter-driven retry loop produces exactly `RetryTrace(succeeds, 0)` |
| Rating.RatingAnswer | app/src/main/java/com/bridou_n/beaconscanner/features/beaconList/BeaconListPresenter.kt:166-180 | a "no" marks the popup seen and dismisses that step. "Yes" at step one shows step two; "yes" at step two redirects to the store and dismisses. "Yes" at any other step does nothing |
| Rating.ConversationFromStepOne | app/src/main/java/com/bridou_n/beaconscanner/features/beaconList/BeaconListPresenter.kt:166-180 | from step one, the store page opens exactly once iff the user says yes twice (else never). The popup is marked seen iff the user says no, and the dialog ends dismissed either way |
| BeaconListPresenter.StartScanPreconditions | app/src/main/java/com/bridou_n/beaconscanner/features/beaconList/BeaconListPresenter.kt:105-112 | without permission `startScan` only asks for it. With the permission but bluetooth off or no manager, it only shows the bluetooth error. Permission is checked first |
| BeaconListPresenter.StartScanBindsOnce | app/src/main/java/com/bridou_n/beaconscanner/features/beaconList/BeaconListPresenter.kt:114-130 | a successful `startScan` leaves the presenter scanning and bound. It appends exactly one bind call to the unchanged old calls if the manager was unbound, and none if it was bound, and touches neither the table, the preferences nor the deliveries |
| BeaconListPresenter.StopScanStops | app/src/main/java/com/bridou_n/beaconscanner/features/beaconList/BeaconListPresenter.kt:284-288 | `stopScan` leaves the presenter not scanning and unbound, and shows scanning off |
| BeaconListPresenter.StopTwice | app/src/main/java/com/bridou_n/beaconscanner/features/beaconList/BeaconListPresenter.kt:312-320 | teardown saves whether the presenter was scanning and releases every subscription without a view call. A second teardown changes only the saved flag, to "not scanning" |
| BeaconListPresenter.ReopenResumesScan | app/src/main/java/com/bridou_n/beaconscanner/features/beaconList/BeaconListPresenter.kt:90-93 | reopening after a teardown (permission held, bluetooth on, a manager present) scans iff the presenter was scanning at teardown or scan-on-open is set |
| BeaconListPresenter.DoubleStopForgetsScan | app/src/main/java/com/bridou_n/beaconscanner/features/beaconList/BeaconListPresenter.kt:90-93 | after two teardowns a presenter that was scanning, without scan-on-open, does not resume on reopen, though after one it does |
| BeaconListPresenter.NothingHandledAfterStop | app/src/main/java/com/bridou_n/beaconscanner/features/beaconList/BeaconListPresenter.kt:312-320 | after teardown, ranging events and bluetooth changes change nothing |
| BeaconListPresenter.BluetoothOffStopsScan | app/src/main/java/com/bridou_n/beaconscanner/features/beaconList/BeaconListPresenter.kt:68-76 | bluetooth turning off, while subscribed, shows the new state and stops the scan |
| BeaconListPresenter.FlushOutcome | app/src/main/java/com/bridou_n/beaconscanner/features/beaconList/BeaconListPresenter.kt:241-277 | a flush resets the counter, sets the cursor to `now` whatever the outcome, and sends the window since the old cursor. It makes at most 4 POSTs and shows one error iff all of them fail |
| BeaconListPresenter.FlushingTickBeaconInNoWindow | app/src/main/java/com/bridou_n/beaconscanner/features/beaconList/BeaconListPresenter.kt:121-129 | a new beacon seen in the ranging event that flushes is stored, but is in neither that flush's request nor the window from the new cursor |
| BeaconListPresenter.QuietTickOnlyCounts | app/src/main/java/com/bridou_n/beaconscanner/features/beaconList/BeaconListPresenter.kt:242-243 | a tick that does not flush changes only the counter, which moves only while logging is enabled with an endpoint |
| BeaconListPresenter.RatingPromptOnlyWhenDue | app/src/main/java/com/bridou_n/beaconscanner/features/beaconList/BeaconListPresenter.kt:159-164 | the prompt is marked ongoing and shown at step one iff it is due; otherwise nothing changes |
| BeaconListPresenter.EmptyRangeEventIgnored | app/src/main/java/com/bridou_n/beaconscanner/features/beaconList/BeaconListPresenter.kt:124 | a ranging event without beacons changes nothing |
| BeaconListPresenter.Presenter.constructor | app/src/main/java/com/bridou_n/beaconscanner/features/beaconList/BeaconListPresenter.kt:39-58 | a new presenter has no manager, no subscriptions, a zero counter and no calls made |
| BeaconListPresenter.Presenter.IsScanning | app/src/main/java/com/bridou_n/beaconscanner/features/beaconList/BeaconListPresenter.kt:310 | the presenter is scanning iff its range subscription is live. A successful StartScan makes it true; StopScan and Stop make it false |
| BeaconListPresenter.Presenter.SetBeaconManager | app/src/main/java/com/bridou_n/beaconscanner/features/beaconList/BeaconListPresenter.kt:60-62 | only the manager changes |
| BeaconListPresenter.Presenter.Start | app/src/main/java/com/bridou_n/beaconscanner/features/beaconList/BeaconListPresenter.kt:64-94 | subscribes to bluetooth and the results, and sets the adapter. It shows the tutorial once, then starts a scan iff scan-on-open or was-scanning is set |
| BeaconListPresenter.Presenter.ToggleScan | app/src/main/java/com/bridou_n/beaconscanner/features/beaconList/BeaconListPresenter.kt:96-103 | starts a scan when not scanning, else stops it |
| BeaconListPresenter.Presenter.StartScan | app/src/main/java/com/bridou_n/beaconscanner/features/beaconList/BeaconListPresenter.kt:105-130 | the new state is `AfterStartScan` of the old. Without permission, everything but the view log is unchanged. It leaves the presenter scanning when the permission is held, bluetooth is on and a manager is present, and otherwise leaves the scanning state as it was |
| BeaconListPresenter.Presenter.OnLocationPermissionGranted | app/src/main/java/com/bridou_n/beaconscanner/features/beaconList/BeaconListPresenter.kt:143-146 | starts a scan |
| BeaconListPresenter.Presenter.OnLocationPermissionDenied | app/src/main/java/com/bridou_n/beaconscanner/features/beaconList/BeaconListPresenter.kt:148-157 | scan-on-open is turned off, and the snackbar is shown iff some permission was permanently denied |
| BeaconListPresenter.Presenter.OnBluetoothStateChanged | app/src/main/java/com/bridou_n/beaconscanner/features/beaconList/BeaconListPresenter.kt:68-76 | while subscribed: shows the state, and stops the scan when it is off |
| BeaconListPresenter.Presenter.HandleRating | app/src/main/java/com/bridou_n/beaconscanner/features/beaconList/BeaconListPresenter.kt:159-164 | the new state is `AfterHandleRating` of the old |
| BeaconListPresenter.Presenter.OnRatingInteraction | app/src/main/java/com/bridou_n/beaconscanner/features/beaconList/BeaconListPresenter.kt:166-180 | the view calls and popup flag are those of `RatingAnswer`; nothing else changes |
| BeaconListPresenter.Presenter.StoreBeaconsAround | app/src/main/java/com/bridou_n/beaconscanner/features/beaconList/BeaconListPresenter.kt:182-239 | commits `StoreBatch` of the event, or leaves everything unchanged when it fails. It keeps every record under its own hash, so the table holds one record per identity, and the results listener reports emptiness after a commit |
| BeaconListPresenter.Presenter.LogToWebhookIfNeeded | app/src/main/java/com/bridou_n/beaconscanner/features/beaconList/BeaconListPresenter.kt:241-282 | the new state is `AfterLogToWebhook` of the old: `Cadence` decides, and a flush sends `Window` and runs `RetryTrace` |
| BeaconListPresenter.Presenter.OnRangeEvent | app/src/main/java/com/bridou_n/beaconscanner/features/beaconList/BeaconListPresenter.kt:121-129 | only while subscribed and with beacons: logging, then rating, then storing |
| BeaconListPresenter.Presenter.StopScan | app/src/main/java/com/bridou_n/beaconscanner/features/beaconList/BeaconListPresenter.kt:284-288 | the new state is `AfterStopScan` of the old, and the presenter is no longer scanning |
| BeaconListPresenter.Presenter.OnClearAccepted | app/src/main/java/com/bridou_n/beaconscanner/features/beaconList/BeaconListPresenter.kt:305-308 | the table becomes empty, and the listener, if registered, reports it empty |
| BeaconListPresenter.Presenter.Stop | app/src/main/java/com/bridou_n/beaconscanner/features/beaconList/BeaconListPresenter.kt:312-320 | the new state is `AfterStop` of the old: not scanning, with whether it was scanning saved |
| BeaconListPresenter.Presenter.UnbindBeaconManager | app/src/main/java/com/bridou_n/beaconscanner/features/beaconList/BeaconListPresenter.kt:322-327 | unbinds, with one call, iff the manager is bound |

## Left out

- Realm's asynchronous machinery is modelled as synchronous. This covers
  `executeTransactionAsync`, `findAllAsync`/`findAllSortedAsync`, `isLoaded` and
  `realm.close()`. A transaction or a query completes within the call that starts it.
  The flush's query-then-POST runs inside `logToWebhookIfNeeded`, so the counter
  resets and the cursor moves in the same step.
- The result list's sort order (by `lastMinuteSeen` descending, then `distance`) is not
  modelled. The table is a map; only emptiness reaches the view.
- RxJava scheduling and the event bus are left out. The bluetooth, range and results
  subscriptions are booleans. A second `start()` without `stop()` would register a second
  listener in the source, which the booleans cannot show.
- Cancelling in-flight deliveries on `stop()` (`loggingRequests.clear()`) is left out.
  Each delivery runs to its end when the flush happens.
- `onBeaconServiceConnect`, `onBluetoothToggle`, `onSettingsClicked`, `onClearClicked`
  and `clear()` are left out. They only forward to the beacon library, the bluetooth
  adapter, the view or Realm, with no decision of their own.
- Binding is modelled as immediate. The source's `bind` is asynchronous, and ranging
  begins when the service connects.
- Firebase analytics events and the `Bundle` built for them are left out. They are side
  telemetry.
- The clock is read once per ranging event, as `now`. The source reads it per field and
  per beacon.
- `Beacon.hashCode()` and `UrlBeaconUrlCompressor.uncompress` are library code that is
  not part of this model. They are an observation field and a function parameter.
- Floating point is not interpreted. `distance` is a `real` that is copied, telemetry
  temperature is the raw integer, and `Math.pow(4.0, k)` is the integer `4^k`, which
  it equals for k ≤ 3.
- The bluetooth state enum is reduced to whether it is `STATE_OFF`.
- The values of the rating helper's step constants are not part of this model. They are
  taken as 1 and 2.
- The HTTP body's serialisation is not modelled. The request is the device label and a
  copy of the records.
- The asynchronous failure path of a POST is modelled by the answer function `succeeds`.
  The actual waiting is the number of seconds in each `Backoff`.
- The race between the flush's query, the event's write transaction and the clock is
  resolved one way. The source runs the query and the transaction asynchronously and reads
  the clock separately for `lastSeen` and for the cursor. The model reads one `now` per
  ranging event, so a beacon first seen in the event that flushes is in no window
  (`FlushingTickBeaconInNoWindow`); with other timings the source could include it.
- StoreBeaconsAround: the fate of the exception after the rollback is not modelled. The
  transaction is started without an error callback, and what the database library then
  does with the exception is library behaviour outside this model. The model rolls back
  and carries on.

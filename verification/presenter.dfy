/** The beacon list presenter: the scan lifecycle, the handling of ranging
    events (webhook logging, rating prompt, storing), the rating dialog and
    clearing, over the state of the collaborators it drives. */
module BeaconListPresenter {
  import opened BeaconRecords
  import opened BeaconStore
  import opened WebhookLogging
  import opened RetrySchedule
  import opened Rating
  import opened View

  /** The preferences the presenter reads and writes. `scanningState` is the
      "was scanning" flag saved on teardown. */
  datatype Prefs = Prefs(
    isLoggingEnabled: bool,
    loggingEndpoint: Option<string>,
    loggingFrequency: int32,
    loggingDeviceName: Option<string>,
    lasLoggingCall: int,
    isScanOnOpen: bool,
    scanningState: bool,
    hasSeenTutorial: bool)

  /** What the presenter writes into the rating helper. */
  datatype RatingHelper = RatingHelper(ongoing: bool, popupSeen: bool)

  /** The calls the presenter makes on the beacon manager. */
  datatype ManagerCall = Bind | Unbind

  /** The beacon manager as the presenter sees it: whether the view is bound. */
  datatype BeaconManager = BeaconManager(bound: bool)

  /** One flush: the endpoint, the request, and its POST-and-retry chain. */
  datatype Delivery = Delivery(endpoint: string, request: LoggingRequest, trace: seq<DeliveryEvent>)

  /** The whole state of a presenter and of what it drives, as a value. */
  datatype Snapshot = Snapshot(
    store: Store,
    prefs: Prefs,
    rating: RatingHelper,
    beaconManager: Option<BeaconManager>,
    managerCalls: seq<ManagerCall>,
    viewEvents: seq<ViewEvent>,
    deliveries: seq<Delivery>,
    bluetoothSubscribed: bool,
    rangeSubscribed: bool,
    resultsListening: bool,
    numberOfScansSinceLog: int32)

  // ---------------------------------------------------------------------
  // The presenter's operations as transitions of a Snapshot.
  // ---------------------------------------------------------------------

  function AfterUnbind(s: Snapshot): Snapshot {
    if s.beaconManager.Some? && s.beaconManager.value.bound then
      s.(beaconManager := Some(BeaconManager(false)), managerCalls := s.managerCalls + [Unbind])
    else
      s
  }

  function AfterStartScan(s: Snapshot, hasPermission: bool, bluetoothEnabled: bool): Snapshot {
    if !hasPermission then
      s.(viewEvents := s.viewEvents + [AskForCoarseLocationPermission])
    else if !bluetoothEnabled || s.beaconManager.None? then
      s.(viewEvents := s.viewEvents + [ShowBluetoothNotEnabledError])
    else
      var bound := s.(beaconManager := Some(BeaconManager(true)),
                      managerCalls := s.managerCalls + if s.beaconManager.value.bound then [] else [Bind]);
      bound.(viewEvents := s.viewEvents + [ShowScanningState(true)], rangeSubscribed := true)
  }

  function AfterStopScan(s: Snapshot): Snapshot {
    AfterUnbind(s).(rangeSubscribed := false, viewEvents := s.viewEvents + [ShowScanningState(false)])
  }

  function AfterStop(s: Snapshot): Snapshot {
    var saved := s.(prefs := s.prefs.(scanningState := s.rangeSubscribed));
    AfterUnbind(saved).(resultsListening := false, bluetoothSubscribed := false, rangeSubscribed := false)
  }

  function AfterStart(s: Snapshot, hasPermission: bool, bluetoothEnabled: bool): Snapshot {
    var listening := s.(bluetoothSubscribed := true, resultsListening := true, viewEvents := s.viewEvents + [SetAdapter]);
    var tutored :=
      if !listening.prefs.hasSeenTutorial then
        listening.(viewEvents := listening.viewEvents + [ShowTutorial], prefs := listening.prefs.(hasSeenTutorial := true))
      else listening;
    if tutored.prefs.isScanOnOpen || tutored.prefs.scanningState then
      AfterStartScan(tutored, hasPermission, bluetoothEnabled)
    else
      tutored
  }

  function AfterToggleScan(s: Snapshot, hasPermission: bool, bluetoothEnabled: bool): Snapshot {
    if !s.rangeSubscribed then AfterStartScan(s, hasPermission, bluetoothEnabled) else AfterStopScan(s)
  }

  function AfterBluetoothState(s: Snapshot, off: bool, enabled: bool): Snapshot {
    if s.bluetoothSubscribed then
      var updated := s.(viewEvents := s.viewEvents + [UpdateBluetoothState(off, enabled)]);
      if off then AfterStopScan(updated) else updated
    else
      s
  }

  function AfterPermissionDenied(s: Snapshot, permanentlyDenied: bool): Snapshot {
    s.(prefs := s.prefs.(isScanOnOpen := false),
       viewEvents := s.viewEvents + if permanentlyDenied then [ShowEnablePermissionSnackbar] else [])
  }

  function AfterHandleRating(s: Snapshot, shouldShowRating: bool): Snapshot {
    if shouldShowRating then
      s.(rating := s.rating.(ongoing := true), viewEvents := s.viewEvents + [ShowRating(STEP_ONE, true)])
    else
      s
  }

  function AfterRatingInteraction(s: Snapshot, step: int, answer: bool): Snapshot {
    var r := RatingAnswer(step, answer);
    s.(rating := s.rating.(popupSeen := s.rating.popupSeen || r.popupSeen), viewEvents := s.viewEvents + r.events)
  }

  /** The view calls of the store's change listener after a committed write. */
  function EmptyViewEvents(listening: bool, s: Store): seq<ViewEvent> {
    if listening then [ShowEmptyView(|s| == 0)] else []
  }

  function AfterStoreBeacons(s: Snapshot, beacons: seq<Beacon>, now: int, uncompress: seq<byte> -> string): Snapshot {
    match StoreBatch(s.store, beacons, now, uncompress)
    case Ok(stored) => s.(store := stored, viewEvents := s.viewEvents + EmptyViewEvents(s.resultsListening, stored))
    case Err(_) => s
  }

  function AfterClear(s: Snapshot): Snapshot {
    s.(store := map[], viewEvents := s.viewEvents + EmptyViewEvents(s.resultsListening, map[]))
  }

  /** The view calls that follow a delivery: one error when it gave up. */
  function DeliveryErrorEvents(trace: seq<DeliveryEvent>): seq<ViewEvent> {
    if GiveUp in trace then [ShowLoggingError] else []
  }

  function AfterLogToWebhook(s: Snapshot, now: int, succeeds: nat -> bool): Snapshot {
    var tick := Cadence(s.numberOfScansSinceLog, s.prefs.isLoggingEnabled, s.prefs.loggingEndpoint.Some?, s.prefs.loggingFrequency);
    if tick.flush then
      var request := LoggingRequest(DeviceLabel(s.prefs.loggingDeviceName), Window(s.store, s.prefs.lasLoggingCall));
      var trace := RetryTrace(succeeds, 0);
      s.(numberOfScansSinceLog := tick.counter,
         prefs := s.prefs.(lasLoggingCall := now),
         deliveries := s.deliveries + [Delivery(s.prefs.loggingEndpoint.value, request, trace)],
         viewEvents := s.viewEvents + DeliveryErrorEvents(trace))
    else
      s.(numberOfScansSinceLog := tick.counter)
  }

  function AfterRangeEvent(s: Snapshot, beacons: seq<Beacon>, now: int, shouldShowRating: bool,
                           succeeds: nat -> bool, uncompress: seq<byte> -> string): Snapshot {
    if s.rangeSubscribed && |beacons| > 0 then
      AfterStoreBeacons(AfterHandleRating(AfterLogToWebhook(s, now, succeeds), shouldShowRating), beacons, now, uncompress)
    else
      s
  }

  // ---------------------------------------------------------------------
  // Properties of the transitions.
  // ---------------------------------------------------------------------

  /** startScan checks the permission first and then bluetooth and the
      manager; a failed check makes one view call and changes nothing else. */
  lemma StartScanPreconditions(s: Snapshot, hasPermission: bool, bluetoothEnabled: bool)
    ensures !hasPermission ==>
      AfterStartScan(s, hasPermission, bluetoothEnabled) == s.(viewEvents := s.viewEvents + [AskForCoarseLocationPermission])
    ensures hasPermission && (!bluetoothEnabled || s.beaconManager.None?) ==>
      AfterStartScan(s, hasPermission, bluetoothEnabled) == s.(viewEvents := s.viewEvents + [ShowBluetoothNotEnabledError])
  {
  }

  /** A successful startScan leaves the presenter scanning with the view bound,
      and asks the manager to bind only when it was not bound already. */
  lemma StartScanBindsOnce(s: Snapshot, bluetoothEnabled: bool)
    requires bluetoothEnabled && s.beaconManager.Some?
    ensures var r := AfterStartScan(s, true, bluetoothEnabled);
      && r.rangeSubscribed
      && r.beaconManager == Some(BeaconManager(true))
      && r.managerCalls == s.managerCalls + (if s.beaconManager.value.bound then [] else [Bind])
      && r.store == s.store && r.prefs == s.prefs && r.deliveries == s.deliveries
  {
  }

  /** stopScan leaves the presenter not scanning and the view unbound, whether
      or not it was scanning. */
  lemma StopScanStops(s: Snapshot)
    ensures var r := AfterStopScan(s);
      && !r.rangeSubscribed
      && (r.beaconManager.Some? ==> !r.beaconManager.value.bound)
      && r.viewEvents == s.viewEvents + [ShowScanningState(false)]
  {
  }

  /** Teardown saves whether the presenter was scanning and releases every
      subscription. A second teardown releases nothing more and calls no one,
      but saves "not scanning" over the flag the first one saved. */
  lemma {:induction false} StopTwice(s: Snapshot)
    ensures var once := AfterStop(s);
      && once.prefs.scanningState == s.rangeSubscribed
      && !once.rangeSubscribed && !once.bluetoothSubscribed && !once.resultsListening
      && once.viewEvents == s.viewEvents
    ensures var once := AfterStop(s);
      AfterStop(once) == once.(prefs := once.prefs.(scanningState := false))
  {
    var once := AfterStop(s);
    assert once.beaconManager.Some? ==> !once.beaconManager.value.bound;
    assert AfterUnbind(once.(prefs := once.prefs.(scanningState := false))) == once.(prefs := once.prefs.(scanningState := false));
  }

  /** Reopening after a teardown resumes scanning exactly when the presenter
      was scanning at teardown or scan-on-open is set (with the permission
      held, bluetooth on and a manager present). */
  lemma ReopenResumesScan(s: Snapshot)
    requires s.beaconManager.Some?
    ensures AfterStart(AfterStop(s), true, true).rangeSubscribed <==> s.rangeSubscribed || s.prefs.isScanOnOpen
  {
  }

  /** A second teardown overwrites the saved flag, so a presenter that was
      scanning no longer resumes on reopen unless scan-on-open is set. */
  lemma DoubleStopForgetsScan(s: Snapshot)
    requires s.beaconManager.Some? && s.rangeSubscribed && !s.prefs.isScanOnOpen
    ensures AfterStart(AfterStop(s), true, true).rangeSubscribed
    ensures !AfterStart(AfterStop(AfterStop(s)), true, true).rangeSubscribed
  {
  }

  /** After teardown, ranging events and bluetooth changes are not handled. */
  lemma NothingHandledAfterStop(s: Snapshot, beacons: seq<Beacon>, now: int, shouldShowRating: bool,
                                succeeds: nat -> bool, uncompress: seq<byte> -> string, off: bool, enabled: bool)
    ensures AfterRangeEvent(AfterStop(s), beacons, now, shouldShowRating, succeeds, uncompress) == AfterStop(s)
    ensures AfterBluetoothState(AfterStop(s), off, enabled) == AfterStop(s)
  {
  }

  /** Bluetooth turning off while the presenter listens stops the scan. */
  lemma BluetoothOffStopsScan(s: Snapshot, enabled: bool)
    requires s.bluetoothSubscribed
    ensures var r := AfterBluetoothState(s, true, enabled);
      && !r.rangeSubscribed
      && r.viewEvents == s.viewEvents + [UpdateBluetoothState(true, enabled), ShowScanningState(false)]
  {
  }

  /** A flush queries the records seen since the previous flush, moves the
      cursor to `now` whatever becomes of the delivery, makes at most
      MAX_RETRIES + 1 POSTs, and shows one error exactly when all of them fail. */
  lemma {:induction false} FlushOutcome(s: Snapshot, now: int, succeeds: nat -> bool)
    requires Cadence(s.numberOfScansSinceLog, s.prefs.isLoggingEnabled, s.prefs.loggingEndpoint.Some?, s.prefs.loggingFrequency).flush
    ensures var r := AfterLogToWebhook(s, now, succeeds);
      && r.numberOfScansSinceLog == 0
      && r.prefs == s.prefs.(lasLoggingCall := now)
      && |r.deliveries| == |s.deliveries| + 1
      && var d := r.deliveries[|r.deliveries| - 1];
      && d.request.beacons == Window(s.store, s.prefs.lasLoggingCall)
      && Posts(d.trace) <= MAX_RETRIES + 1
      && (r.viewEvents == s.viewEvents + [ShowLoggingError] <==> forall i :: 0 <= i <= MAX_RETRIES ==> !succeeds(i))
      && (r.viewEvents == s.viewEvents || r.viewEvents == s.viewEvents + [ShowLoggingError])
  {
    RetryPostsBound(succeeds, 0);
    GiveUpIffAllFail(succeeds);
  }

  /** A beacon first seen in the very ranging event that flushes is stored,
      but it is in neither that flush's request (queried before the event is
      stored) nor the next flush's window (its `lastSeen` equals the new
      cursor), until it is seen again. */
  lemma {:induction false} FlushingTickBeaconInNoWindow(s: Snapshot, b: Beacon, now: int, shouldShowRating: bool,
                                                        succeeds: nat -> bool, uncompress: seq<byte> -> string)
    requires s.rangeSubscribed && Readable(b) && b.hashCode !in s.store
    requires Cadence(s.numberOfScansSinceLog, s.prefs.isLoggingEnabled, s.prefs.loggingEndpoint.Some?, s.prefs.loggingFrequency).flush
    ensures var r := AfterRangeEvent(s, [b], now, shouldShowRating, succeeds, uncompress);
      && b.hashCode in r.store
      && |r.deliveries| == |s.deliveries| + 1
      && b.hashCode !in r.deliveries[|r.deliveries| - 1].request.beacons
      && b.hashCode !in Window(r.store, r.prefs.lasLoggingCall)
  {
    var logged := AfterLogToWebhook(s, now, succeeds);
    FlushOutcome(s, now, succeeds);
    var rated := AfterHandleRating(logged, shouldShowRating);
    SingleBeaconBatch(rated.store, b, now, uncompress);
    var rec := Classify(b, now, uncompress).value;
    var r := AfterRangeEvent(s, [b], now, shouldShowRating, succeeds, uncompress);
    assert r.store == s.store[b.hashCode := rec];
    assert r.prefs.lasLoggingCall == now && rec.lastSeen == now;
  }

  /** A tick that does not flush moves only the counter: no request, no view
      call, no preference write. */
  lemma QuietTickOnlyCounts(s: Snapshot, now: int, succeeds: nat -> bool)
    requires !Cadence(s.numberOfScansSinceLog, s.prefs.isLoggingEnabled, s.prefs.loggingEndpoint.Some?, s.prefs.loggingFrequency).flush
    ensures AfterLogToWebhook(s, now, succeeds)
         == s.(numberOfScansSinceLog := if s.prefs.isLoggingEnabled && s.prefs.loggingEndpoint.Some?
                                        then Inc32(s.numberOfScansSinceLog) else s.numberOfScansSinceLog)
  {
  }

  /** The rating prompt is shown, at step one, and marked ongoing exactly when
      the helper says it is due; otherwise nothing changes. */
  lemma RatingPromptOnlyWhenDue(s: Snapshot, shouldShowRating: bool)
    ensures var r := AfterHandleRating(s, shouldShowRating);
      && (r.rating.ongoing <==> shouldShowRating || s.rating.ongoing)
      && r.rating.popupSeen == s.rating.popupSeen
      && (r.viewEvents == s.viewEvents + [ShowRating(STEP_ONE, true)] <==> shouldShowRating)
      && (!shouldShowRating ==> r == s)
  {
  }

  /** A ranging event without beacons changes nothing. */
  lemma EmptyRangeEventIgnored(s: Snapshot, now: int, shouldShowRating: bool, succeeds: nat -> bool, uncompress: seq<byte> -> string)
    ensures AfterRangeEvent(s, [], now, shouldShowRating, succeeds, uncompress) == s
  {
  }

  // ---------------------------------------------------------------------
  // The presenter.
  // ---------------------------------------------------------------------

  class Presenter {
    // The collaborators, reduced to what the presenter reads and writes.
    var store: Store
    var prefs: Prefs
    var rating: RatingHelper
    var beaconManager: Option<BeaconManager>
    var managerCalls: seq<ManagerCall>
    var viewEvents: seq<ViewEvent>
    var deliveries: seq<Delivery>
    /** The Eddystone-URL decompressor of the scanning library. */
    const uncompress: seq<byte> -> string

    // The presenter's own state.
    var bluetoothSubscribed: bool
    var rangeSubscribed: bool
    var resultsListening: bool
    var numberOfScansSinceLog: int32

    /** Every record of the table sits under its own identity hash, which is
        what makes it hold one record per identity (`StoreBeaconsAround`). */
    ghost predicate Valid()
      reads this
    {
      KeyedByHash(store)
    }

    ghost function State(): Snapshot
      reads this
    {
      Snapshot(store, prefs, rating, beaconManager, managerCalls, viewEvents, deliveries,
               bluetoothSubscribed, rangeSubscribed, resultsListening, numberOfScansSinceLog)
    }

    constructor(store: Store, prefs: Prefs, rating: RatingHelper, uncompress: seq<byte> -> string)
      requires KeyedByHash(store)
      ensures Valid() && this.uncompress == uncompress
      ensures State() == Snapshot(store, prefs, rating, None, [], [], [], false, false, false, 0)
    {
      this.store := store;
      this.prefs := prefs;
      this.rating := rating;
      this.uncompress := uncompress;
      beaconManager := None;
      managerCalls := [];
      viewEvents := [];
      deliveries := [];
      bluetoothSubscribed := false;
      rangeSubscribed := false;
      resultsListening := false;
      numberOfScansSinceLog := 0;
    }

    /** Whether the range subscription is live. */
    function IsScanning(): (r: bool)
      reads this
      ensures r <==> State().rangeSubscribed
    {
      rangeSubscribed
    }

    method SetBeaconManager(bound: bool)
      modifies this
      ensures Valid() == old(Valid())
      ensures State() == old(State()).(beaconManager := Some(BeaconManager(bound)))
    {
      beaconManager := Some(BeaconManager(bound));
    }

    method Start(hasPermission: bool, bluetoothEnabled: bool)
      requires Valid()
      modifies this
      ensures Valid()
      ensures State() == AfterStart(old(State()), hasPermission, bluetoothEnabled)
    {
      bluetoothSubscribed := true;
      viewEvents := viewEvents + [SetAdapter];
      resultsListening := true;
      if !prefs.hasSeenTutorial {
        viewEvents := viewEvents + [ShowTutorial];
        prefs := prefs.(hasSeenTutorial := true);
      }
      if prefs.isScanOnOpen || prefs.scanningState {
        StartScan(hasPermission, bluetoothEnabled);
      }
    }

    method ToggleScan(hasPermission: bool, bluetoothEnabled: bool)
      requires Valid()
      modifies this
      ensures Valid()
      ensures State() == AfterToggleScan(old(State()), hasPermission, bluetoothEnabled)
    {
      if !IsScanning() {
        StartScan(hasPermission, bluetoothEnabled);
        return;
      }
      StopScan();
    }

    method StartScan(hasPermission: bool, bluetoothEnabled: bool)
      requires Valid()
      modifies this
      ensures Valid()
      ensures State() == AfterStartScan(old(State()), hasPermission, bluetoothEnabled)
      ensures !hasPermission ==>
        State() == old(State()).(viewEvents := old(viewEvents) + [AskForCoarseLocationPermission])
      ensures hasPermission && bluetoothEnabled && old(beaconManager).Some? ==> IsScanning()
      ensures !(hasPermission && bluetoothEnabled && old(beaconManager).Some?) ==> IsScanning() == old(IsScanning())
    {
      if !hasPermission {
        viewEvents := viewEvents + [AskForCoarseLocationPermission];
        return;
      }
      if !bluetoothEnabled || beaconManager.None? {
        viewEvents := viewEvents + [ShowBluetoothNotEnabledError];
        return;
      }
      if !beaconManager.value.bound {
        beaconManager := Some(BeaconManager(true));
        managerCalls := managerCalls + [Bind];
      }
      viewEvents := viewEvents + [ShowScanningState(true)];
      // The previous range subscription, if any, is replaced by a fresh one.
      rangeSubscribed := true;
    }

    method OnLocationPermissionGranted(hasPermission: bool, bluetoothEnabled: bool)
      requires Valid()
      modifies this
      ensures Valid()
      ensures State() == AfterStartScan(old(State()), hasPermission, bluetoothEnabled)
    {
      StartScan(hasPermission, bluetoothEnabled);
    }

    method OnLocationPermissionDenied(permanentlyDenied: bool)
      modifies this
      ensures Valid() == old(Valid())
      ensures State() == AfterPermissionDenied(old(State()), permanentlyDenied)
      ensures !prefs.isScanOnOpen
    {
      prefs := prefs.(isScanOnOpen := false);
      if permanentlyDenied {
        viewEvents := viewEvents + [ShowEnablePermissionSnackbar];
      }
    }

    method OnBluetoothStateChanged(off: bool, enabled: bool)
      requires Valid()
      modifies this
      ensures Valid()
      ensures State() == AfterBluetoothState(old(State()), off, enabled)
    {
      if bluetoothSubscribed {
        viewEvents := viewEvents + [UpdateBluetoothState(off, enabled)];
        if off {
          StopScan();
        }
      }
    }

    method HandleRating(shouldShowRating: bool)
      modifies this
      ensures Valid() == old(Valid())
      ensures State() == AfterHandleRating(old(State()), shouldShowRating)
    {
      if shouldShowRating {
        rating := rating.(ongoing := true);
        viewEvents := viewEvents + [ShowRating(STEP_ONE, true)];
      }
    }

    method OnRatingInteraction(step: int, answer: bool)
      modifies this
      ensures Valid() == old(Valid())
      ensures State() == AfterRatingInteraction(old(State()), step, answer)
    {
      if !answer {
        rating := rating.(popupSeen := true);
        viewEvents := viewEvents + [ShowRating(step, false)];
        return;
      }
      if step == STEP_ONE {
        viewEvents := viewEvents + [ShowRating(STEP_TWO, true)];
      } else if step == STEP_TWO {
        viewEvents := viewEvents + [RedirectToStorePage, ShowRating(step, false)];
      }
    }

    /** Stores one ranging event in a single write transaction, committed
        only if every beacon could be read; the store's change listener then
        reports whether the table is empty. */
    method StoreBeaconsAround(beacons: seq<Beacon>, now: int)
      requires Valid()
      modifies this
      ensures Valid()
      ensures State() == AfterStoreBeacons(old(State()), beacons, now, uncompress)
      ensures forall k1, k2 :: k1 in store && k2 in store && store[k1].hashcode == store[k2].hashcode ==> k1 == k2
    {
      ghost var before := State();
      var outcome := ApplyBatch(store, beacons, now, uncompress);
      if outcome.Err? {
        // The transaction threw and was rolled back.
        assert StoreBatch(before.store, beacons, now, uncompress).Err?;
        return;
      }
      BatchStoresEveryBeacon(store, beacons, now, uncompress);
      store := outcome.value;
      // The change listener, while registered, reports whether the table is empty.
      viewEvents := viewEvents + EmptyViewEvents(resultsListening, store);
    }

    method LogToWebhookIfNeeded(now: int, succeeds: nat -> bool)
      modifies this
      ensures Valid() == old(Valid())
      ensures State() == AfterLogToWebhook(old(State()), now, succeeds)
    {
      ghost var tick := Cadence(numberOfScansSinceLog, prefs.isLoggingEnabled, prefs.loggingEndpoint.Some?, prefs.loggingFrequency);
      if prefs.isLoggingEnabled && prefs.loggingEndpoint.Some? {
        numberOfScansSinceLog := Inc32(numberOfScansSinceLog);
        if numberOfScansSinceLog == prefs.loggingFrequency {
          assert tick.flush;
          var toLog := Window(store, prefs.lasLoggingCall);
          prefs := prefs.(lasLoggingCall := now);
          var request := LoggingRequest(DeviceLabel(prefs.loggingDeviceName), toLog);
          var trace := PostLogsWithRetry(succeeds);
          deliveries := deliveries + [Delivery(prefs.loggingEndpoint.value, request, trace)];
          viewEvents := viewEvents + DeliveryErrorEvents(trace);
          numberOfScansSinceLog := 0;
        }
      }
    }

    method OnRangeEvent(beacons: seq<Beacon>, now: int, shouldShowRating: bool, succeeds: nat -> bool)
      requires Valid()
      modifies this
      ensures Valid()
      ensures State() == AfterRangeEvent(old(State()), beacons, now, shouldShowRating, succeeds, uncompress)
    {
      if rangeSubscribed && |beacons| > 0 {
        LogToWebhookIfNeeded(now, succeeds);
        HandleRating(shouldShowRating);
        StoreBeaconsAround(beacons, now);
      }
    }

    method StopScan()
      requires Valid()
      modifies this
      ensures Valid()
      ensures State() == AfterStopScan(old(State()))
      ensures !IsScanning()
    {
      UnbindBeaconManager();
      rangeSubscribed := false;
      viewEvents := viewEvents + [ShowScanningState(false)];
    }

    method OnClearAccepted()
      requires Valid()
      modifies this
      ensures Valid()
      ensures State() == AfterClear(old(State()))
    {
      store := map[];
      if resultsListening {
        viewEvents := viewEvents + [ShowEmptyView(true)];
      }
    }

    method Stop()
      requires Valid()
      modifies this
      ensures Valid()
      ensures State() == AfterStop(old(State()))
      ensures !IsScanning() && prefs.scanningState == old(IsScanning())
    {
      prefs := prefs.(scanningState := IsScanning());
      UnbindBeaconManager();
      resultsListening := false;
      bluetoothSubscribed := false;
      rangeSubscribed := false;
    }

    method UnbindBeaconManager()
      requires Valid()
      modifies this
      ensures Valid()
      ensures State() == AfterUnbind(old(State()))
    {
      if beaconManager.Some? && beaconManager.value.bound {
        beaconManager := Some(BeaconManager(false));
        managerCalls := managerCalls + [Unbind];
      }
    }
  }
}

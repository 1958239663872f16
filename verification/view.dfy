/** The calls the presenter makes on its view, recorded in order. */
module View {

  datatype ViewEvent =
    | AskForCoarseLocationPermission
    | ShowBluetoothNotEnabledError
    | ShowScanningState(scanning: bool)
    | UpdateBluetoothState(off: bool, enabled: bool)
    | SetAdapter
    | ShowEmptyView(empty: bool)
    | ShowTutorial
    | ShowEnablePermissionSnackbar
    /** `show` is false when the dialog at `step` is dismissed. */
    | ShowRating(step: int, show: bool)
    | RedirectToStorePage
    | ShowLoggingError

  /** The last call dismisses a rating dialog. */
  predicate EndsDismissed(events: seq<ViewEvent>) {
    |events| > 0 && events[|events| - 1].ShowRating? && !events[|events| - 1].show
  }

  /** Number of occurrences of `e` in `events`. */
  function Count(events: seq<ViewEvent>, e: ViewEvent): nat {
    if events == [] then 0
    else Count(events[..|events| - 1], e) + if events[|events| - 1] == e then 1 else 0
  }
}

/** The state the view saves before it is destroyed and restores when it is
    recreated (a rotation, say): five of its fields and the parent view's own
    saved state, which the chart carries without looking inside. */
module Snapshot {
  import opened KotlinInt
  import opened Hours

  datatype Option<T> = None | Some(value: T)

  /** The five fields that survive a destroy/recreate cycle. */
  datatype Persisted = Persisted(
    strokeWidth: real,
    workedColorResource: Int32,
    missingColorResource: Int32,
    totalHours: Int32,
    workedHours: Int32)

  /** A saved state: the chart's `ViewState`, or a state some other view saved
      (an opaque parcel of bytes, as far as the chart is concerned). */
  datatype SavedState =
    | ViewState(
        strokeWidth: real,
        workedColorResource: Int32,
        missingColorResource: Int32,
        totalHours: Int32,
        workedHours: Int32,
        superState: Option<SavedState>)
    | ParentState(blob: seq<bv8>)

  /** `onSaveInstanceState`: the five fields and the parent's saved state. */
  function Capture(p: Persisted, superState: Option<SavedState>): (s: SavedState)
    ensures s.ViewState? && s.superState == superState
    ensures Persisted(s.strokeWidth, s.workedColorResource, s.missingColorResource,
                      s.totalHours, s.workedHours) == p
  {
    ViewState(p.strokeWidth, p.workedColorResource, p.missingColorResource,
              p.totalHours, p.workedHours, superState)
  }

  /** `onRestoreInstanceState`: the fields after restoring `state` over `current`,
      and the state handed on to the parent's restore. */
  function Restore(current: Persisted, state: Option<SavedState>): (r: (Persisted, Option<SavedState>))
    ensures state.Some? && state.value.ViewState? ==>
      var v := state.value;
      r == (Persisted(v.strokeWidth, v.workedColorResource, v.missingColorResource,
                      v.totalHours, v.workedHours), v.superState)
    ensures state.None? || !state.value.ViewState? ==> r == (current, state)
  {
    match state
    case Some(ViewState(sw, wc, mc, th, wh, superState)) => (Persisted(sw, wc, mc, th, wh), superState)
    case _ => (current, state)
  }

  /** Saving and then restoring gives back the five fields whatever the view
      held in between, and hands the parent exactly the state it saved. */
  lemma SaveRestoreRoundTrip(current: Persisted, saved: Persisted, superState: Option<SavedState>)
    ensures Restore(current, Some(Capture(saved, superState))) == (saved, superState)
  {
  }

  /** A state that is not the chart's own changes none of the fields and is
      passed on to the parent unchanged. */
  lemma ForeignStatePassesThrough(current: Persisted, state: Option<SavedState>)
    requires state.None? || !state.value.ViewState?
    ensures Restore(current, state) == (current, state)
  {
  }

  /** Restore assigns the hours directly, without the setters' check, so the
      restored hours are consistent exactly when the saved ones were. */
  lemma RestoreKeepsConsistencyOfSnapshot(current: Persisted, state: SavedState)
    requires state.ViewState?
    ensures var p := Restore(current, Some(state)).0;
      Consistent(Hours(p.totalHours, p.workedHours)) <==> state.workedHours <= state.totalHours
  {
  }
}

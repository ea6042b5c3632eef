/** The dashboard's Redux slice: a three-field state driven by the pending, fulfilled and
    rejected actions of the data-fetching thunk. */
module DashboardSlice {
  import opened Optional
  import opened FrontendTypes

  datatype DashboardState = DashboardState(data: Option<DashboardData>, loading: bool, error: Option<string>)

  const InitialState: DashboardState := DashboardState(None, false, None)

  /** The message stored when a rejection carries no (or an empty) error message. */
  const DefaultError: string := "Failed to fetch data"

  /** The lifecycle actions of the fetch thunk, and any other action type. */
  datatype Action =
    | Pending
    | Fulfilled(payload: DashboardData)
    | Rejected(errorMessage: Option<string>)
    | Other(kind: string)

  /** One reducer step on a present state. */
  function Reduce(state: DashboardState, action: Action): (s: DashboardState)
    ensures action.Pending? ==> s.loading && s.error == None && s.data == state.data
    ensures action.Fulfilled? ==> !s.loading && s.data == Some(action.payload) && s.error == state.error
    ensures action.Rejected? ==> !s.loading && s.data == state.data && s.error.Some? && s.error.value != ""
    ensures action.Rejected? && action.errorMessage.Some? && action.errorMessage.value != "" ==>
      s.error == action.errorMessage
    ensures action.Rejected? && (action.errorMessage.None? || action.errorMessage.value == "") ==>
      s.error == Some(DefaultError)
    ensures action.Other? ==> s == state
  {
    match action
    case Pending => state.(loading := true, error := None)
    case Fulfilled(payload) => state.(loading := false, data := Some(payload))
    case Rejected(message) =>
      var text := if message.Some? && message.value != "" then message.value else DefaultError;
      state.(loading := false, error := Some(text))
    case Other(_) => state
  }

  /** The exported reducer: an undefined state is replaced by the initial state. */
  function Reducer(state: Option<DashboardState>, action: Action): DashboardState
  {
    Reduce(state.GetOr(InitialState), action)
  }

  /** The state after dispatching `actions` in order. */
  function Run(state: DashboardState, actions: seq<Action>): DashboardState
  {
    if |actions| == 0 then state
    else Reduce(Run(state, actions[..|actions| - 1]), actions[|actions| - 1])
  }

  /** The most recent pending, fulfilled or rejected action, if any. */
  function LastLifecycle(actions: seq<Action>): Option<Action>
  {
    if |actions| == 0 then None
    else if actions[|actions| - 1].Other? then LastLifecycle(actions[..|actions| - 1])
    else Some(actions[|actions| - 1])
  }

  /** The payload of the most recent fulfilled action, if any. */
  function LastPayload(actions: seq<Action>): Option<DashboardData>
  {
    if |actions| == 0 then None
    else if actions[|actions| - 1].Fulfilled? then Some(actions[|actions| - 1].payload)
    else LastPayload(actions[..|actions| - 1])
  }

  /** The reducer's tests: the initial state, and each lifecycle action applied to it. */
  lemma ReducerTestCases(payload: DashboardData)
    ensures Reducer(None, Other("unknown")) == InitialState
    ensures Reducer(Some(InitialState), Pending).loading
    ensures Reducer(Some(InitialState), Pending).error == None
    ensures Reducer(Some(InitialState), Fulfilled(payload)) == DashboardState(Some(payload), false, None)
    ensures Reducer(Some(InitialState), Rejected(Some(DefaultError)))
      == DashboardState(None, false, Some(DefaultError))
  {
  }

  /** A request that succeeds always ends loaded and error-free, whatever came before. */
  lemma PendingThenFulfilled(state: DashboardState, payload: DashboardData)
    ensures Run(state, [Pending, Fulfilled(payload)]) == DashboardState(Some(payload), false, None)
  {
  }

  /** `loading` is set exactly when the most recent lifecycle action is a pending one. */
  lemma {:induction false} RunLoading(state: DashboardState, actions: seq<Action>)
    ensures Run(state, actions).loading ==
      if LastLifecycle(actions).Some? then LastLifecycle(actions).value.Pending? else state.loading
  {
    if |actions| > 0 {
      RunLoading(state, actions[..|actions| - 1]);
    }
  }

  /** `data` is the payload of the most recent fulfilled action; pending and rejected
      actions never clear it. */
  lemma {:induction false} RunData(state: DashboardState, actions: seq<Action>)
    ensures Run(state, actions).data == if LastPayload(actions).Some? then LastPayload(actions) else state.data
  {
    if |actions| > 0 {
      RunData(state, actions[..|actions| - 1]);
    }
  }

  /** Starting from the initial state, an error is either absent or a non-empty message. */
  lemma {:induction false} RunErrorNeverEmpty(actions: seq<Action>)
    ensures Run(InitialState, actions).error != Some("")
  {
    if |actions| > 0 {
      RunErrorNeverEmpty(actions[..|actions| - 1]);
    }
  }
}

/** The `techSupport` slice: the error log, the statistics, and the loading
    and error flags of the error-log fetch. */
module TechSupportSlice {
  import opened Common
  import opened FrontTypes

  datatype Snapshot = Snapshot(errors: seq<ErrorLog>, stats: Option<TechSupportStats>, loading: bool, error: Option<string>)

  const Initial := Snapshot([], None, false, None)

  /** The actions of the two thunks. `fetchStats` has a case only for
      `fulfilled`. */
  datatype Action =
    | FetchErrorsPending
    | FetchErrorsFulfilled(errors: seq<ErrorLog>)
    | FetchErrorsRejected(message: string)
    | FetchStatsPending
    | FetchStatsFulfilled(stats: TechSupportStats)
    | FetchStatsRejected(message: string)

  class TechSupportState {
    var errors: seq<ErrorLog>
    var stats: Option<TechSupportStats>
    var loading: bool
    var error: Option<string>

    function State(): Snapshot
      reads this
    {
      Snapshot(errors, stats, loading, error)
    }

    /** `initialState` */
    constructor()
      ensures State() == Initial
    {
      errors := [];
      stats := None;
      loading := false;
      error := None;
    }

    /** The reducer: one branch per case of the slice; an action without a
        case leaves the state as it was. A new fetch does not clear an
        earlier error. */
    method Dispatch(a: Action)
      modifies this
      ensures a.FetchErrorsPending? ==> State() == old(State()).(loading := true)
      ensures a.FetchErrorsFulfilled? ==> State() == old(State()).(loading := false, errors := a.errors)
      ensures a.FetchErrorsRejected? ==> State() == old(State()).(loading := false, error := Some(a.message))
      ensures a.FetchStatsFulfilled? ==> State() == old(State()).(stats := Some(a.stats))
      ensures a.FetchStatsPending? || a.FetchStatsRejected? ==> State() == old(State())
    {
      match a
      case FetchErrorsPending =>
        loading := true;
      case FetchErrorsFulfilled(payload) =>
        loading := false;
        errors := payload;
      case FetchErrorsRejected(message) =>
        loading := false;
        error := Some(message);
      case FetchStatsFulfilled(payload) =>
        stats := Some(payload);
      case FetchStatsPending =>
      case FetchStatsRejected(_) =>
    }
  }

  /** The statistics fetch never touches the error-log fields, and the
      error-log fetch never touches the statistics. */
  method Independence(state: TechSupportState, a: Action)
    modifies state
    ensures a.FetchStatsPending? || a.FetchStatsFulfilled? || a.FetchStatsRejected? ==>
      state.errors == old(state.errors) && state.loading == old(state.loading) && state.error == old(state.error)
    ensures a.FetchErrorsPending? || a.FetchErrorsFulfilled? || a.FetchErrorsRejected? ==>
      state.stats == old(state.stats)
  {
    state.Dispatch(a);
  }
}

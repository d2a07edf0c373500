/** The `health` slice: the last health answer or error and when the last
    check finished. The clock reading (`new Date().toISOString()`) is passed
    in as `now`. */
module HealthSlice {
  import opened Common
  import opened FrontTypes

  datatype Snapshot = Snapshot(response: Option<HealthResponse>, loading: bool, error: Option<string>, lastChecked: Option<string>)

  const Initial := Snapshot(None, false, None, None)

  /** An answer or an error is only shown once a check has finished. */
  ghost predicate Consistent(s: Snapshot) {
    s.response.Some? || s.error.Some? ==> s.lastChecked.Some?
  }

  class HealthState {
    var response: Option<HealthResponse>
    var loading: bool
    var error: Option<string>
    var lastChecked: Option<string>

    function State(): Snapshot
      reads this
    {
      Snapshot(response, loading, error, lastChecked)
    }

    /** `initialState` */
    constructor()
      ensures State() == Initial && Consistent(State())
    {
      response := None;
      loading := false;
      error := None;
      lastChecked := None;
    }

    /** `clearHealth`: `loading` is left as it is. */
    method ClearHealth()
      modifies this
      ensures State() == old(State()).(response := None, error := None, lastChecked := None)
      ensures Consistent(State())
    {
      response := None;
      error := None;
      lastChecked := None;
    }

    /** `checkHealth.pending`: the previous answer stays visible. */
    method CheckHealthPending()
      modifies this
      ensures State() == old(State()).(loading := true, error := None)
      ensures Consistent(old(State())) ==> Consistent(State())
    {
      loading := true;
      error := None;
    }

    /** `checkHealth.fulfilled` at time `now`: an error from an earlier
        failed check is not cleared here. */
    method CheckHealthFulfilled(payload: HealthResponse, now: string)
      modifies this
      ensures State() == old(State()).(loading := false, response := Some(payload), lastChecked := Some(now))
      ensures Consistent(State())
    {
      loading := false;
      response := Some(payload);
      lastChecked := Some(now);
    }

    /** `checkHealth.rejected` at time `now`: the previous answer is not
        cleared. */
    method CheckHealthRejected(message: string, now: string)
      modifies this
      ensures State() == old(State()).(loading := false, error := Some(message), lastChecked := Some(now))
      ensures Consistent(State())
    {
      loading := false;
      error := Some(message);
      lastChecked := Some(now);
    }
  }

  /** A success followed by a failure shows both the old answer and the
      error, stamped with the failure's time. */
  method SuccessThenFailure(ok: HealthResponse, t1: string, t2: string, message: string) returns (state: HealthState)
    ensures state.response == Some(ok) && state.error == Some(message)
    ensures state.lastChecked == Some(t2) && !state.loading
  {
    state := new HealthState();
    state.CheckHealthPending();
    state.CheckHealthFulfilled(ok, t1);
    state.CheckHealthPending();
    state.CheckHealthRejected(message, t2);
  }
}

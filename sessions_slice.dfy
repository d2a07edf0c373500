/** The `sessions` slice: the current user's active session and history,
    the support view of all sessions, and the loading and error flags.
    Each reducer case is a method that assigns the fields the case assigns;
    the thunks' network calls are out of the model, only the payloads they
    deliver are parameters. */
module SessionsSlice {
  import opened Common
  import opened FrontTypes

  /** The slice state as a value, to state a reducer's whole effect at once. */
  datatype Snapshot = Snapshot(
    activeSession: Option<Session>,
    history: seq<Session>,
    allSessions: seq<Session>,
    loading: bool,
    error: Option<string>)

  const Initial := Snapshot(None, [], [], false, None)

  /** `allSessions.filter((s) => s.sessionId !== id)` */
  function WithoutSession(s: seq<Session>, id: string): (r: seq<Session>)
    ensures |r| <= |s|
    ensures forall i :: 0 <= i < |r| ==> r[i].sessionId != id && r[i] in s
  {
    if s == [] then []
    else if s[0].sessionId != id then [s[0]] + WithoutSession(s[1..], id)
    else WithoutSession(s[1..], id)
  }

  /** Every session with another id stays, as often as it was there; every
      session with the removed id is gone. */
  lemma {:induction false} WithoutSessionCounts(s: seq<Session>, id: string, x: Session)
    ensures multiset(WithoutSession(s, id))[x] == if x.sessionId == id then 0 else multiset(s)[x]
  {
    if s != [] {
      WithoutSessionCounts(s[1..], id, x);
      assert s == [s[0]] + s[1..];
    }
  }

  /** The filter distributes over concatenation, so the kept sessions keep
      their relative order. */
  lemma {:induction false} WithoutSessionAppend(s: seq<Session>, t: seq<Session>, id: string)
    ensures WithoutSession(s + t, id) == WithoutSession(s, id) + WithoutSession(t, id)
  {
    if s != [] {
      assert (s + t)[1..] == s[1..] + t;
      WithoutSessionAppend(s[1..], t, id);
    } else {
      assert s + t == t;
    }
  }

  /** Removing an id nobody has changes nothing. */
  lemma {:induction false} WithoutSessionAbsent(s: seq<Session>, id: string)
    requires forall i :: 0 <= i < |s| ==> s[i].sessionId != id
    ensures WithoutSession(s, id) == s
  {
    if s != [] {
      WithoutSessionAbsent(s[1..], id);
      assert s == [s[0]] + s[1..];
    }
  }

  /** A second force-stop of the same session leaves the list as the first
      left it. */
  lemma WithoutSessionIdempotent(s: seq<Session>, id: string)
    ensures WithoutSession(WithoutSession(s, id), id) == WithoutSession(s, id)
  {
    WithoutSessionAbsent(WithoutSession(s, id), id);
  }

  class SessionsState {
    var activeSession: Option<Session>
    var history: seq<Session>
    var allSessions: seq<Session>
    var loading: bool
    var error: Option<string>

    function State(): Snapshot
      reads this
    {
      Snapshot(activeSession, history, allSessions, loading, error)
    }

    /** `initialState` */
    constructor()
      ensures State() == Initial
    {
      activeSession := None;
      history := [];
      allSessions := [];
      loading := false;
      error := None;
    }

    /** `clearSessionError` */
    method ClearSessionError()
      modifies this
      ensures State() == old(State()).(error := None)
    {
      error := None;
    }

    /** `fetchActiveSession.pending` */
    method FetchActiveSessionPending()
      modifies this
      ensures State() == old(State()).(loading := true)
    {
      loading := true;
    }

    /** `fetchActiveSession.fulfilled`: the payload is None when the server
        reports no session. */
    method FetchActiveSessionFulfilled(payload: Option<Session>)
      modifies this
      ensures State() == old(State()).(loading := false, activeSession := payload)
    {
      loading := false;
      activeSession := payload;
    }

    /** `fetchActiveSession.rejected`, with the rejection message. */
    method FetchActiveSessionRejected(message: string)
      modifies this
      ensures State() == old(State()).(loading := false, error := Some(message))
    {
      loading := false;
      error := Some(message);
    }

    /** `fetchSessionHistory.fulfilled`; its pending and rejected actions
        have no case. */
    method FetchSessionHistoryFulfilled(payload: seq<Session>)
      modifies this
      ensures State() == old(State()).(history := payload)
    {
      history := payload;
    }

    /** `startCharging.fulfilled` */
    method StartChargingFulfilled(payload: Session)
      modifies this
      ensures State() == old(State()).(activeSession := Some(payload), error := None)
    {
      activeSession := Some(payload);
      error := None;
    }

    /** `startCharging.rejected` */
    method StartChargingRejected(message: string)
      modifies this
      ensures State() == old(State()).(error := Some(message))
    {
      error := Some(message);
    }

    /** `stopCharging.fulfilled`: the payload is ignored. */
    method StopChargingFulfilled(payload: Session)
      modifies this
      ensures State() == old(State()).(activeSession := None)
    {
      activeSession := None;
    }

    /** `stopCharging.rejected` */
    method StopChargingRejected(message: string)
      modifies this
      ensures State() == old(State()).(error := Some(message))
    {
      error := Some(message);
    }

    /** `fetchAllSessions.pending` */
    method FetchAllSessionsPending()
      modifies this
      ensures State() == old(State()).(loading := true)
    {
      loading := true;
    }

    /** `fetchAllSessions.fulfilled` */
    method FetchAllSessionsFulfilled(payload: seq<Session>)
      modifies this
      ensures State() == old(State()).(loading := false, allSessions := payload)
    {
      loading := false;
      allSessions := payload;
    }

    /** `fetchAllSessions.rejected` */
    method FetchAllSessionsRejected(message: string)
      modifies this
      ensures State() == old(State()).(loading := false, error := Some(message))
    {
      loading := false;
      error := Some(message);
    }

    /** `forceStopSession.fulfilled`: every session with the stopped
        session's id leaves `allSessions`; the active session is kept even
        when it is the one stopped. */
    method ForceStopSessionFulfilled(payload: Session)
      modifies this
      ensures State() == old(State()).(allSessions := WithoutSession(old(allSessions), payload.sessionId))
      ensures forall i :: 0 <= i < |allSessions| ==> allSessions[i].sessionId != payload.sessionId
    {
      allSessions := WithoutSession(allSessions, payload.sessionId);
    }

    /** `forceStopSession.rejected` */
    method ForceStopSessionRejected(message: string)
      modifies this
      ensures State() == old(State()).(error := Some(message))
    {
      error := Some(message);
    }
  }

  /** A start that succeeds after a failed fetch clears the error, and the
      stop that follows leaves no active session but keeps the history. */
  method StartStopScenario(started: Session, history: seq<Session>) returns (state: SessionsState)
    ensures state.activeSession.None? && state.error.None? && !state.loading
    ensures state.history == history && state.allSessions == []
  {
    state := new SessionsState();
    state.FetchSessionHistoryFulfilled(history);
    state.FetchActiveSessionPending();
    state.FetchActiveSessionRejected("network");
    state.StartChargingFulfilled(started);
    state.StopChargingFulfilled(started);
  }
}

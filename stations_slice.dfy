/** The `stations` slice: the station list, the station being viewed, and
    the loading and error flags. */
module StationsSlice {
  import opened Common
  import opened FrontTypes

  datatype Snapshot = Snapshot(list: seq<Station>, currentStation: Option<Station>, loading: bool, error: Option<string>)

  const Initial := Snapshot([], None, false, None)

  /** While a request is outstanding no error is shown: every pending case
      clears it, and only a rejection sets it, which also ends loading. */
  ghost predicate Consistent(s: Snapshot) {
    s.loading ==> s.error.None?
  }

  class StationsState {
    var list: seq<Station>
    var currentStation: Option<Station>
    var loading: bool
    var error: Option<string>

    function State(): Snapshot
      reads this
    {
      Snapshot(list, currentStation, loading, error)
    }

    /** `initialState` */
    constructor()
      ensures State() == Initial && Consistent(State())
    {
      list := [];
      currentStation := None;
      loading := false;
      error := None;
    }

    /** `clearCurrentStation` */
    method ClearCurrentStation()
      modifies this
      ensures State() == old(State()).(currentStation := None)
      ensures Consistent(old(State())) ==> Consistent(State())
    {
      currentStation := None;
    }

    /** `fetchStations.pending` */
    method FetchStationsPending()
      modifies this
      ensures State() == old(State()).(loading := true, error := None)
      ensures Consistent(State())
    {
      loading := true;
      error := None;
    }

    /** `fetchStations.fulfilled`: the station being viewed is kept. */
    method FetchStationsFulfilled(payload: seq<Station>)
      modifies this
      ensures State() == old(State()).(loading := false, list := payload)
      ensures Consistent(State())
    {
      loading := false;
      list := payload;
    }

    /** `fetchStations.rejected`: the list already loaded is kept. */
    method FetchStationsRejected(message: string)
      modifies this
      ensures State() == old(State()).(loading := false, error := Some(message))
      ensures Consistent(State())
    {
      loading := false;
      error := Some(message);
    }

    /** `fetchStationDetail.pending` */
    method FetchStationDetailPending()
      modifies this
      ensures State() == old(State()).(loading := true, error := None)
      ensures Consistent(State())
    {
      loading := true;
      error := None;
    }

    /** `fetchStationDetail.fulfilled` */
    method FetchStationDetailFulfilled(payload: Station)
      modifies this
      ensures State() == old(State()).(loading := false, currentStation := Some(payload))
      ensures Consistent(State())
    {
      loading := false;
      currentStation := Some(payload);
    }

    /** `fetchStationDetail.rejected`: the station previously viewed is
        kept. */
    method FetchStationDetailRejected(message: string)
      modifies this
      ensures State() == old(State()).(loading := false, error := Some(message))
      ensures Consistent(State())
    {
      loading := false;
      error := Some(message);
    }
  }

  /** A failed detail fetch after a successful list fetch shows the error
      and keeps the list; a new list fetch clears the error again. */
  method ListThenFailedDetail(stations: seq<Station>, message: string) returns (state: StationsState)
    ensures state.list == stations && state.currentStation.None?
    ensures state.loading && state.error.None?
  {
    state := new StationsState();
    state.FetchStationsPending();
    state.FetchStationsFulfilled(stations);
    state.FetchStationDetailPending();
    state.FetchStationDetailRejected(message);
    assert state.error == Some(message) && state.list == stations;
    state.FetchStationsPending();
  }
}

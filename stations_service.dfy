/** `MockStationsService`: a fixed, read-only list of two stations with a
    lookup by id. */
module StationsService {
  import opened Common

  datatype StationStatus = Available | Busy | Offline

  datatype Station = Station(stationId: string, name: string, address: Option<string>, status: Option<StationStatus>)

  /** The service's `readonly stations` list. Nothing writes to it, so every
      `list()` call returns this same value. */
  const Catalog: seq<Station> := [
    Station("st-001", "Demo Station 1", None, Some(Available)),
    Station("st-002", "Demo Station 2", None, Some(Busy))
  ]

  /** `list()` */
  function List(): (r: seq<Station>)
    ensures |r| == 2
    ensures r[0].stationId == "st-001" && r[0].name == "Demo Station 1" && r[0].status == Some(Available)
    ensures r[1].stationId == "st-002" && r[1].name == "Demo Station 2" && r[1].status == Some(Busy)
    ensures forall s :: s in r ==> s.address.None?
  {
    Catalog
  }

  /** No two stations of the list share an id. */
  lemma CatalogIdsDistinct()
    ensures forall i, j :: 0 <= i < j < |List()| ==> List()[i].stationId != List()[j].stationId
  {
  }

  /** `stations.find((s) => s.stationId === id) ?? null`: the first station
      with that id. */
  function Find(stations: seq<Station>, id: string): (r: Option<Station>)
    ensures r.None? <==> forall i :: 0 <= i < |stations| ==> stations[i].stationId != id
    ensures r.Some? ==>
      exists i :: 0 <= i < |stations| && stations[i] == r.value &&
        r.value.stationId == id && forall j :: 0 <= j < i ==> stations[j].stationId != id
  {
    if stations == [] then None
    else if stations[0].stationId == id then Some(stations[0])
    else
      var r := Find(stations[1..], id);
      assert forall i :: 1 <= i < |stations| ==> stations[i] == stations[1..][i - 1];
      if r.Some? then
        var k :| 0 <= k < |stations[1..]| && stations[1..][k] == r.value &&
          r.value.stationId == id && forall j :: 0 <= j < k ==> stations[1..][j].stationId != id;
        assert stations[k + 1] == r.value;
        r
      else r
  }

  /** `getById(stationId)` */
  function GetById(id: string): (r: Option<Station>)
    ensures r.Some? ==> r.value.stationId == id && r.value in List()
    ensures r.None? <==> forall s :: s in List() ==> s.stationId != id
  {
    Find(Catalog, id)
  }

  /** Each id of the list finds its own station; any other id finds none. */
  lemma {:induction false} GetByIdExamples(id: string)
    ensures GetById("st-001") == Some(Catalog[0])
    ensures GetById("st-002") == Some(Catalog[1])
    ensures id != "st-001" && id != "st-002" ==> GetById(id) == None
  {
  }
}

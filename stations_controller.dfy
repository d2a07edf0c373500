/** `StationsController`: `GET /stations` and `GET /stations/:stationId`. */
module StationsController {
  import opened Common
  import opened Http
  import opened StationsService

  /** `list` */
  function ListStations(): (r: Response<seq<Station>>)
    ensures r == Response(200, Data(List()))
  {
    Response(200, Data(List()))
  }

  /** `getById`, given the `stationId` path parameter (None when absent).
      An empty id fails `idSchema.parse`, which throws, and the error
      handler answers 500 before the service is asked. */
  function GetStation(param: Option<string>): (r: Response<Station>)
    ensures param.None? || param.value == "" ==> r == ErrorHandler(ZodError)
    ensures r.code == 404 <==> param.Some? && param.value != "" && GetById(param.value).None?
    ensures r.code == 404 ==> r == Fail(404, "Station not found")
    ensures r.code == 200 <==> param.Some? && param.value != "" && GetById(param.value).Some?
    ensures r.code == 200 ==> r.body.Data? && r.body.data.stationId == param.value && r.body.data in List()
  {
    if param.None? || param.value == "" then ErrorHandler(ZodError)
    else
      match GetById(param.value)
      case None => Fail(404, "Station not found")
      case Some(s) => Response(200, Data(s))
  }

  /** The two known ids are answered with 200, anything else non-empty with
      404. */
  lemma {:induction false} GetStationOutcomes(id: string)
    requires id != ""
    ensures GetStation(Some("st-001")) == Response(200, Data(Catalog[0]))
    ensures id != "st-001" && id != "st-002" ==> GetStation(Some(id)) == Fail(404, "Station not found")
  {
    GetByIdExamples(id);
  }
}

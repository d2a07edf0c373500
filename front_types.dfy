/** The frontend's record types, as far as the slices and the auth context
    use them. Numeric measurements (power, tariff, charge, cost) are left
    out: nothing modelled reads them. */
module FrontTypes {
  import opened Common

  datatype StationStatus = New | Active | Maintenance | OutOfOrder

  datatype Station = Station(stationId: string, name: string, address: string, status: StationStatus)

  datatype SessionStatus = Started | InProgress | Completed | Interrupted | Failed

  datatype Session = Session(
    sessionId: string,
    userId: string,
    stationId: string,
    portId: string,
    status: SessionStatus,
    startedAt: string,
    stoppedAt: Option<string>)

  /** `User`. The role is whatever string the server sent: the code casts it
      without checking, so it is kept as a string. */
  datatype User = User(
    userId: string,
    email: string,
    name: Option<string>,
    role: string,
    blocked: Option<bool>,
    accessToken: Option<string>,
    refreshToken: Option<string>)

  datatype ErrorLog = ErrorLog(errorId: string, level: string, service: string, status: string, message: string, timestamp: string)

  datatype HealthResponse = HealthResponse(service: string, status: string, timestamp: string)

  datatype TechSupportStats = TechSupportStats(activeSessions: Option<int>, totalStations: Option<int>, unresolvedErrors: Option<int>)

  /** The body of a successful login answer. */
  datatype LoginResponse = LoginResponse(
    userId: string,
    email: Option<string>,
    role: string,
    accessToken: Option<string>,
    idToken: Option<string>,
    refreshToken: Option<string>)
}

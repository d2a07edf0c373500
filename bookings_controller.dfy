/** `BookingsController`: the three booking routes. Each checks the caller's
    identity first, then validates its input (a failed `zod` parse throws,
    and the error handler answers 500), and only then calls the service. */
module BookingsController {
  import opened Common
  import opened Http
  import opened Auth
  import opened BookingsService

  /** The request body as far as `createSchema` looks at it: each field is
      None when it is absent or not a string. */
  datatype CreateBody = CreateBody(stationId: Option<string>, slotFrom: Option<string>, slotTo: Option<string>)

  /** `z.string().min(1)` */
  predicate NonEmptyString(f: Option<string>) {
    f.Some? && f.value != ""
  }

  /** `createSchema.parse(body)`: None where `parse` throws. */
  function ParseCreate(body: CreateBody): (r: Option<CreateBookingRequest>)
    ensures r.Some? <==> NonEmptyString(body.stationId) && NonEmptyString(body.slotFrom) && NonEmptyString(body.slotTo)
    ensures r.Some? ==> r.value.stationId == body.stationId.value && r.value.slotFrom == body.slotFrom.value &&
                        r.value.slotTo == body.slotTo.value
  {
    if NonEmptyString(body.stationId) && NonEmptyString(body.slotFrom) && NonEmptyString(body.slotTo) then
      Some(CreateBookingRequest(body.stationId.value, body.slotFrom.value, body.slotTo.value))
    else None
  }

  /** The `data` of a successful cancel. */
  datatype Cancellation = Cancellation(bookingId: string, status: BookingStatus)

  class BookingsController {
    const service: MockBookingsService

    constructor(service: MockBookingsService)
      ensures this.service == service
    {
      this.service := service;
    }

    /** `GET /bookings` */
    method ListMyBookings(user: Option<AuthUser>) returns (r: Response<seq<Booking>>)
      ensures Subject(user).None? ==> r == Fail(401, "Unauthorized")
      ensures Subject(user).Some? ==> r.code == 200 && r.body.Data?
      ensures r.body.Data? ==>
        Subject(user).Some? && r.body.data == OwnedBy(service.bookings, Subject(user).value)
    {
      var userId := Subject(user);
      if userId.None? {
        return Fail(401, "Unauthorized");
      }
      var data := service.ListForUser(userId.value);
      r := Response(200, Data(data));
    }

    /** `POST /bookings`, with the clock reading `now` passed in. */
    method CreateBooking(user: Option<AuthUser>, body: CreateBody, now: nat) returns (r: Response<Booking>)
      requires service.Valid()
      modifies service
      ensures service.Valid()
      ensures Subject(user).None? ==> r == Fail(401, "Unauthorized")
      ensures Subject(user).Some? && ParseCreate(body).None? ==> r == ErrorHandler(ZodError)
      ensures r.code != 201 ==> service.bookings == old(service.bookings)
      ensures r.code == 201 <==> Subject(user).Some? && ParseCreate(body).Some?
      ensures r.code == 201 ==>
        && r.body.Data?
        && r.body.data == Booking(BookingId(now), Subject(user).value, ParseCreate(body).value.stationId,
                                  ParseCreate(body).value.slotFrom, ParseCreate(body).value.slotTo, Created)
        && service.bookings == [r.body.data] + old(service.bookings)
    {
      var userId := Subject(user);
      if userId.None? {
        return Fail(401, "Unauthorized");
      }
      var req := ParseCreate(body);
      if req.None? {
        return ErrorHandler(ZodError);
      }
      var data := service.Create(userId.value, req.value, now);
      r := Response(201, Data(data));
    }

    /** `DELETE /bookings/:bookingId`, given the path parameter (None when
        absent). */
    method CancelBooking(user: Option<AuthUser>, param: Option<string>) returns (r: Response<Cancellation>)
      requires service.Valid()
      modifies service
      ensures service.Valid()
      ensures Subject(user).None? ==> r == Fail(401, "Unauthorized")
      ensures Subject(user).Some? && !NonEmptyString(param) ==> r == ErrorHandler(ZodError)
      ensures r.code != 200 ==> service.bookings == old(service.bookings)
      ensures Subject(user).Some? && NonEmptyString(param) ==>
        var i := MatchIndex(old(service.bookings), Subject(user).value, param.value);
        && (i < 0 ==> r == Fail(404, "Booking not found"))
        && (i >= 0 ==> r == Response(200, Data(Cancellation(param.value, Cancelled))) &&
                       service.bookings == CancelledAt(old(service.bookings), i))
    {
      var userId := Subject(user);
      if userId.None? {
        return Fail(401, "Unauthorized");
      }
      if !NonEmptyString(param) {
        return ErrorHandler(ZodError);
      }
      var bookingId := param.value;
      var ok := service.Cancel(userId.value, bookingId);
      if !ok {
        return Fail(404, "Booking not found");
      }
      r := Response(200, Data(Cancellation(bookingId, Cancelled)));
    }
  }

  function UserWithSub(sub: string): AuthUser {
    AuthUser(sub, None, None, None, map[])
  }

  /** Create a booking as `u1`, cancel it as `u1`, then try the same cancel
      as `u2`: 201, then 200, then 404. The booking is cancelled once and
      `u2`'s attempt changes nothing. */
  method CreateCancelScenario(now: nat) returns (created: Response<Booking>, mine: Response<Cancellation>,
                                                  theirs: Response<Cancellation>)
    ensures created.code == 201 && created.body.Data?
    ensures created.body.data.userId == "u1" && created.body.data.status == Created
    ensures mine == Response(200, Data(Cancellation(BookingId(now), Cancelled)))
    ensures theirs == Fail(404, "Booking not found")
  {
    var service := new MockBookingsService();
    var controller := new BookingsController(service);
    created := controller.CreateBooking(Some(UserWithSub("u1")),
      CreateBody(Some("st-001"), Some("2024-01-01T10:00:00Z"), Some("2024-01-01T11:00:00Z")), now);
    assert service.bookings == [created.body.data];
    mine := controller.CancelBooking(Some(UserWithSub("u1")), Some(BookingId(now)));
    assert service.bookings == [created.body.data.(status := Cancelled)];
    theirs := controller.CancelBooking(Some(UserWithSub("u2")), Some(BookingId(now)));
  }
}

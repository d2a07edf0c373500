/** `MockBookingsService`: the in-memory list of bookings, newest first,
    with listing by owner, creation and cancellation. */
module BookingsService {
  import opened Common

  datatype BookingStatus = Created | Cancelled

  datatype Booking = Booking(
    bookingId: string,
    userId: string,
    stationId: string,
    slotFrom: string,
    slotTo: string,
    status: BookingStatus)

  datatype CreateBookingRequest = CreateBookingRequest(stationId: string, slotFrom: string, slotTo: string)

  /** The shape of every id the service hands out: `bk-` and digits. */
  predicate IsGeneratedId(id: string) {
    |id| > 3 && id[..3] == "bk-" && forall i :: 3 <= i < |id| ==> IsDigit(id[i])
  }

  /** `bk-${Date.now()}`, with the clock reading `now` passed in. */
  function BookingId(now: nat): (id: string)
    ensures IsGeneratedId(id)
  {
    var d := Decimal(now);
    assert forall i :: 3 <= i < |"bk-" + d| ==> ("bk-" + d)[i] == d[i - 3];
    "bk-" + d
  }

  /** Two bookings get the same id exactly when they are created at the same
      clock reading: nothing else keeps ids apart. */
  lemma {:induction false} BookingIdCollision(a: nat, b: nat)
    ensures BookingId(a) == BookingId(b) <==> a == b
  {
    if BookingId(a) == BookingId(b) {
      assert BookingId(a)[3..] == Decimal(a);
      assert BookingId(b)[3..] == Decimal(b);
      DecimalInjective(a, b);
    }
  }

  // ---------------------------------------------------------------------
  // Listing by owner

  /** `bookings.filter((b) => b.userId === userId)` */
  function OwnedBy(s: seq<Booking>, u: string): (r: seq<Booking>)
    ensures |r| <= |s|
    ensures forall i :: 0 <= i < |r| ==> r[i].userId == u && r[i] in s
  {
    if s == [] then []
    else if s[0].userId == u then [s[0]] + OwnedBy(s[1..], u)
    else OwnedBy(s[1..], u)
  }

  /** The owner's list holds each of the owner's bookings as often as the
      store does, and no booking of anyone else. */
  lemma {:induction false} OwnedByCounts(s: seq<Booking>, u: string, b: Booking)
    ensures multiset(OwnedBy(s, u))[b] == if b.userId == u then multiset(s)[b] else 0
  {
    if s != [] {
      OwnedByCounts(s[1..], u, b);
      assert s == [s[0]] + s[1..];
    }
  }

  /** The filter distributes over concatenation: the owner's list keeps
      the store's order. */
  lemma {:induction false} OwnedByAppend(s: seq<Booking>, t: seq<Booking>, u: string)
    ensures OwnedBy(s + t, u) == OwnedBy(s, u) + OwnedBy(t, u)
  {
    if s == [] {
      assert s + t == t;
    } else {
      assert (s + t)[1..] == s[1..] + t;
      OwnedByAppend(s[1..], t, u);
    }
  }

  /** A booking put in front is the first of its owner's list and leaves
      everybody else's list as it was. */
  lemma {:induction false} OwnedByPrepend(b: Booking, s: seq<Booking>, u: string)
    ensures b.userId == u ==> OwnedBy([b] + s, u) == [b] + OwnedBy(s, u)
    ensures b.userId != u ==> OwnedBy([b] + s, u) == OwnedBy(s, u)
  {
    assert ([b] + s)[1..] == s;
  }

  // ---------------------------------------------------------------------
  // Cancellation

  predicate Matches(b: Booking, u: string, id: string) {
    b.userId == u && b.bookingId == id
  }

  /** `bookings.findIndex((b) => b.userId === userId && b.bookingId === id)`:
      the first booking of `u` with that id, or -1. */
  function MatchIndex(s: seq<Booking>, u: string, id: string): (r: int)
    ensures -1 <= r < |s|
    ensures r == -1 <==> forall i :: 0 <= i < |s| ==> !Matches(s[i], u, id)
    ensures r >= 0 ==> Matches(s[r], u, id) && forall i :: 0 <= i < r ==> !Matches(s[i], u, id)
  {
    if s == [] then -1
    else if Matches(s[0], u, id) then 0
    else
      var r := MatchIndex(s[1..], u, id);
      assert forall i :: 1 <= i < |s| ==> s[i] == s[1..][i - 1];
      if r == -1 then -1 else r + 1
  }

  /** `{ ...bookings[i], status: 'cancelled' }` written back at `i`. */
  function CancelledAt(s: seq<Booking>, i: nat): (t: seq<Booking>)
    requires i < |s|
    ensures |t| == |s|
    ensures t[i] == s[i].(status := Cancelled)
    ensures forall j :: 0 <= j < |s| && j != i ==> t[j] == s[j]
  {
    s[i := s[i].(status := Cancelled)]
  }

  /** Cancelling one user's booking leaves every other user's list as it
      was. */
  lemma {:induction false} CancelIsolation(s: seq<Booking>, i: nat, v: string)
    requires i < |s| && s[i].userId != v
    ensures OwnedBy(CancelledAt(s, i), v) == OwnedBy(s, v)
  {
    if i > 0 {
      var t := CancelledAt(s, i);
      assert t[1..] == CancelledAt(s[1..], i - 1);
      CancelIsolation(s[1..], i - 1, v);
    } else {
      assert CancelledAt(s, i)[1..] == s[1..];
    }
  }

  /** A second cancel with the same owner and id finds the same booking and
      changes nothing: cancelling is idempotent. */
  lemma {:induction false} CancelIdempotent(s: seq<Booking>, u: string, id: string)
    requires MatchIndex(s, u, id) >= 0
    ensures MatchIndex(CancelledAt(s, MatchIndex(s, u, id)), u, id) == MatchIndex(s, u, id)
    ensures CancelledAt(CancelledAt(s, MatchIndex(s, u, id)), MatchIndex(s, u, id)) ==
            CancelledAt(s, MatchIndex(s, u, id))
  {
    var i := MatchIndex(s, u, id);
    var t := CancelledAt(s, i);
    assert Matches(t[i], u, id);
    assert forall j :: 0 <= j < i ==> t[j] == s[j];
    var k := MatchIndex(t, u, id);
    assert k == i;
  }

  /** Bookings share an id when created in the same millisecond. Of two
      such bookings of one owner, only the newer can ever be cancelled: the
      lookup stops at it, before and after it is cancelled. */
  lemma {:induction false} DuplicateIdShadowsOlder(s: seq<Booking>, u: string, id: string, i: nat, j: nat)
    requires i < j < |s| && Matches(s[i], u, id) && Matches(s[j], u, id)
    ensures 0 <= MatchIndex(s, u, id) <= i
    ensures CancelledAt(s, MatchIndex(s, u, id))[j] == s[j]
    ensures MatchIndex(CancelledAt(s, MatchIndex(s, u, id)), u, id) == MatchIndex(s, u, id)
  {
    CancelIdempotent(s, u, id);
  }

  // ---------------------------------------------------------------------
  // The service

  class MockBookingsService {
    /** The `bookings` field, newest booking first. */
    var bookings: seq<Booking>

    /** Every stored booking carries a generated id. */
    ghost predicate Valid()
      reads this
    {
      forall i :: 0 <= i < |bookings| ==> IsGeneratedId(bookings[i].bookingId)
    }

    constructor()
      ensures Valid() && bookings == []
    {
      bookings := [];
    }

    /** `listForUser(userId)` */
    method ListForUser(userId: string) returns (r: seq<Booking>)
      ensures r == OwnedBy(bookings, userId)
    {
      r := OwnedBy(bookings, userId);
    }

    /** `create(userId, req)`, with the clock reading `now` passed in. */
    method Create(userId: string, req: CreateBookingRequest, now: nat) returns (b: Booking)
      requires Valid()
      modifies this
      ensures Valid()
      ensures b == Booking(BookingId(now), userId, req.stationId, req.slotFrom, req.slotTo, Created)
      ensures bookings == [b] + old(bookings)
    {
      b := Booking(BookingId(now), userId, req.stationId, req.slotFrom, req.slotTo, Created);
      bookings := [b] + bookings;
    }

    /** `cancel(userId, bookingId)`: flips the first matching booking to
        cancelled in place; false, and no change, when none matches. */
    method Cancel(userId: string, bookingId: string) returns (ok: bool)
      requires Valid()
      modifies this
      ensures Valid()
      ensures ok <==> MatchIndex(old(bookings), userId, bookingId) >= 0
      ensures !ok ==> bookings == old(bookings)
      ensures ok ==> bookings == CancelledAt(old(bookings), MatchIndex(old(bookings), userId, bookingId))
    {
      var idx := MatchIndex(bookings, userId, bookingId);
      if idx == -1 {
        return false;
      }
      bookings := bookings[idx := bookings[idx].(status := Cancelled)];
      ok := true;
    }
  }
}

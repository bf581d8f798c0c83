/**
 * The booking routes of routes/bookings.ts. A booking moves through
 * pending, confirmed, completed and cancelled along a fixed transition
 * table, and is visible to its parties through a role-branched access
 * check. These routes never call the escrow payment store.
 */
module Bookings {
  import opened Js
  import Pets
  import Services

  datatype BookingStatus = Pending | Confirmed | Completed | Cancelled

  /** The string a status is stored and sent as. */
  function Name(s: BookingStatus): string
  {
    match s
    case Pending => "pending"
    case Confirmed => "confirmed"
    case Completed => "completed"
    case Cancelled => "cancelled"
  }

  /** The status a requested string names, if any. */
  function ParseStatus(s: string): (r: Option<BookingStatus>)
    ensures r.Some? ==> Name(r.value) == s
    ensures r.None? ==> forall t: BookingStatus :: Name(t) != s
  {
    if s == "pending" then Some(Pending)
    else if s == "confirmed" then Some(Confirmed)
    else if s == "completed" then Some(Completed)
    else if s == "cancelled" then Some(Cancelled)
    else None
  }

  /** Every status name reads back as that status. */
  lemma ParseName(s: BookingStatus)
    ensures ParseStatus(Name(s)) == Some(s)
  {
  }

  /** The `validTransitions` table: the statuses each status may move to. */
  function ValidTransitions(s: BookingStatus): (r: seq<BookingStatus>)
    ensures s !in r && Pending !in r
    ensures s == Completed || s == Cancelled ==> r == []
    ensures forall t :: t in r ==> Rank(t) > Rank(s)
    ensures |r| <= 2
  {
    match s
    case Pending => [Confirmed, Cancelled]
    case Confirmed => [Completed, Cancelled]
    case Completed => []
    case Cancelled => []
  }

  /** `validTransitions[current].includes(requested)` for a requested status string. */
  function Permits(current: BookingStatus, requested: string): (r: bool)
    ensures r <==> exists t :: t in ValidTransitions(current) && Name(t) == requested
    ensures r ==> ParseStatus(requested).Some? && Rank(ParseStatus(requested).value) > Rank(current)
  {
    ParseStatus(requested).Some? && ParseStatus(requested).value in ValidTransitions(current)
  }

  /**
   * The table allows exactly pending→confirmed, pending→cancelled,
   * confirmed→completed and confirmed→cancelled: completed and cancelled
   * have no successors and no status may move to itself.
   */
  lemma TransitionTableIsExact(current: BookingStatus, next: BookingStatus)
    ensures Permits(current, Name(next)) <==>
      || (current == Pending && next == Confirmed)
      || (current == Pending && next == Cancelled)
      || (current == Confirmed && next == Completed)
      || (current == Confirmed && next == Cancelled)
    ensures current == Completed || current == Cancelled ==> !Permits(current, Name(next))
    ensures !Permits(current, Name(current))
  {
  }

  /** Pending is 0, confirmed 1, completed and cancelled 2. */
  function Rank(s: BookingStatus): nat
  {
    match s
    case Pending => 0
    case Confirmed => 1
    case Completed => 2
    case Cancelled => 2
  }

  /** A sequence of statuses each of which the table permits after the one before. */
  ghost predicate Lifecycle(ss: seq<BookingStatus>)
  {
    forall i :: 0 < i < |ss| ==> Permits(ss[i - 1], Name(ss[i]))
  }

  /**
   * Every permitted transition raises the rank, so a booking's statuses
   * never repeat, and a booking changes status at most twice.
   */
  lemma {:induction false} LifecycleRises(ss: seq<BookingStatus>)
    requires |ss| > 0 && Lifecycle(ss)
    ensures Rank(ss[|ss| - 1]) >= Rank(ss[0]) + |ss| - 1
    ensures |ss| <= 3
    decreases |ss|
  {
    if |ss| > 1 {
      var init := ss[..|ss| - 1];
      assert Lifecycle(init) by {
        forall i | 0 < i < |init| ensures Permits(init[i - 1], Name(init[i])) {
          assert init[i - 1] == ss[i - 1] && init[i] == ss[i];
        }
      }
      LifecycleRises(init);
      ParseName(ss[|ss| - 1]);
      assert Permits(ss[|ss| - 2], Name(ss[|ss| - 1]));
    }
  }

  /** Along any chain of permitted transitions no status occurs twice. */
  lemma StatusesNeverRepeat(ss: seq<BookingStatus>, i: int, j: int)
    requires Lifecycle(ss) && 0 <= i < j < |ss|
    ensures ss[i] != ss[j]
  {
    var sub := ss[i..j + 1];
    assert Lifecycle(sub) by {
      forall k | 0 < k < |sub| ensures Permits(sub[k - 1], Name(sub[k])) {
        assert sub[k - 1] == ss[i + k - 1] && sub[k] == ss[i + k];
      }
    }
    LifecycleRises(sub);
    assert sub[0] == ss[i] && sub[|sub| - 1] == ss[j];
  }

  /**
   * A booking. The owner and provider are those of its pet and service,
   * captured when it is created.
   */
  datatype Booking = Booking(
    id: int,
    date: string,
    status: BookingStatus,
    notes: Option<string>,
    petId: int,
    ownerId: int,
    serviceId: int,
    providerId: int,
    totalPrice: Option<int>,
    rating: Option<int>,
    reviewText: Option<string>)

  /**
   * The access check: a caller with the provider role is compared with the
   * booking's service provider, any other caller with its pet's owner.
   */
  function HasAccess(role: string, userId: int, b: Booking): (r: bool)
    ensures r ==> userId == b.ownerId || userId == b.providerId
    ensures userId == b.ownerId && userId == b.providerId ==> r
  {
    if role == Services.ProviderRole then b.providerId == userId else b.ownerId == userId
  }

  /**
   * Access needs identity, not a role claim: a caller who is neither the
   * owner nor the provider is refused under every role, and the provider of a
   * booking is refused when acting without the provider role unless they also
   * own the pet. The role picks the identity compared: the service's provider
   * with the provider role, and the pet's owner with any other role, is let in.
   */
  lemma AccessNeedsIdentity(role: string, userId: int, b: Booking)
    ensures HasAccess(role, userId, b) ==> userId == b.ownerId || userId == b.providerId
    ensures role != Services.ProviderRole && userId != b.ownerId ==> !HasAccess(role, userId, b)
    ensures role == Services.ProviderRole && userId != b.providerId ==> !HasAccess(role, userId, b)
    ensures role == Services.ProviderRole ==> (HasAccess(role, userId, b) <==> userId == b.providerId)
    ensures role != Services.ProviderRole ==> (HasAccess(role, userId, b) <==> userId == b.ownerId)
  {
  }

  /** A review is only ever present on a completed booking. */
  ghost predicate ReviewedOnlyWhenCompleted(b: Booking)
  {
    b.rating.Some? || b.reviewText.Some? ==> b.status == Completed
  }

  /** The booking repository: bookings by id, and the next id the database will assign. */
  class BookingRepository {
    var bookings: map<int, Booking>
    var nextId: int

    ghost predicate Valid()
      reads this
    {
      forall k :: k in bookings ==> bookings[k].id == k && k < nextId && ReviewedOnlyWhenCompleted(bookings[k])
    }

    constructor ()
      ensures Valid() && bookings == map[]
    {
      bookings := map[];
      nextId := 1;
    }

    /** `GET /`: exactly the bookings the caller passes the access check for. */
    function Visible(userId: int, role: string): (r: map<int, Booking>)
      reads this
      ensures forall k :: k in r <==> k in bookings && HasAccess(role, userId, bookings[k])
      ensures forall k :: k in r ==> r[k] == bookings[k]
    {
      map k | k in bookings && HasAccess(role, userId, bookings[k]) :: bookings[k]
    }

    /** `GET /:id`: 404 for a missing booking, then 403 without access, else the booking. */
    method GetBooking(id: int, userId: int, role: string) returns (code: int, booking: Option<Booking>)
      ensures code == NotFound <==> id !in bookings
      ensures code == Forbidden <==> id in bookings && !HasAccess(role, userId, bookings[id])
      ensures code == Ok <==> id in bookings && HasAccess(role, userId, bookings[id])
      ensures booking.Some? <==> code == Ok
      ensures code == Ok ==> booking == Some(bookings[id])
    {
      if id !in bookings {
        return NotFound, None;
      }
      var b := bookings[id];
      if !HasAccess(role, userId, b) {
        return Forbidden, None;
      }
      return Ok, Some(b);
    }

    /**
     * `POST /`: 403 when the pet is missing or the caller does not own it,
     * checked before 404 for a missing service. A created booking is
     * pending, has no review, and costs the service's price.
     */
    method CreateBooking(userId: int, petId: int, serviceId: int, date: string, notes: Option<string>,
                         pets: map<int, Pets.Pet>, services: map<int, Services.Service>)
      returns (code: int, id: int)
      requires Valid()
      modifies this
      ensures Valid()
      ensures code == Forbidden <==> petId !in pets || pets[petId].ownerId != userId
      ensures code == NotFound <==> petId in pets && pets[petId].ownerId == userId && serviceId !in services
      ensures code == Created <==> petId in pets && pets[petId].ownerId == userId && serviceId in services
      ensures code != Created ==> bookings == old(bookings) && nextId == old(nextId)
      ensures code == Created ==>
        && id !in old(bookings)
        && bookings == old(bookings)[id := Booking(id, date, Pending, notes, petId, userId,
                                                   serviceId, services[serviceId].providerId,
                                                   services[serviceId].fields.price, None, None)]
    {
      id := 0;
      if petId !in pets || pets[petId].ownerId != userId {
        return Forbidden, id;
      }
      if serviceId !in services {
        return NotFound, id;
      }
      var service := services[serviceId];
      id := nextId;
      nextId := nextId + 1;
      var booking := Booking(id, date, Pending, notes, petId, pets[petId].ownerId,
                             serviceId, service.providerId, service.fields.price, None, None);
      bookings := bookings[id := booking];
      code := Created;
    }

    /**
     * `PUT /:id/status`: 404 for a missing booking, then 403 without
     * access, then 400 for a status the table does not list after the
     * current one; all three leave the repository unchanged. Otherwise
     * only that booking's status changes, along a permitted edge.
     */
    method UpdateStatus(id: int, userId: int, role: string, requested: string) returns (code: int)
      requires Valid()
      modifies this
      ensures Valid() && nextId == old(nextId)
      ensures code == NotFound <==> id !in old(bookings)
      ensures code == Forbidden <==> id in old(bookings) && !HasAccess(role, userId, old(bookings)[id])
      ensures code == BadRequest <==>
        id in old(bookings) && HasAccess(role, userId, old(bookings)[id]) && !Permits(old(bookings)[id].status, requested)
      ensures code == Ok <==>
        id in old(bookings) && HasAccess(role, userId, old(bookings)[id]) && Permits(old(bookings)[id].status, requested)
      ensures code != Ok ==> bookings == old(bookings)
      ensures code == Ok ==>
        && id in bookings && Name(bookings[id].status) == requested
        && bookings == old(bookings)[id := old(bookings)[id].(status := bookings[id].status)]
    {
      if id !in bookings {
        return NotFound;
      }
      var booking := bookings[id];
      if !HasAccess(role, userId, booking) {
        return Forbidden;
      }
      if !Permits(booking.status, requested) {
        return BadRequest;
      }
      booking := booking.(status := ParseStatus(requested).value);
      bookings := bookings[id := booking];
      code := Ok;
    }

    /**
     * `POST /:id/review`: 404 for a missing booking, then 403 unless the
     * caller owns the pet (whatever their role), then 400 unless the booking
     * is completed. Otherwise the rating and review text are set, replacing
     * any earlier review, and nothing else changes. `save` skips a property
     * left `undefined`, so a field the body omits keeps its stored value.
     */
    method AddReview(id: int, userId: int, rating: Option<int>, reviewText: Option<string>) returns (code: int)
      requires Valid()
      modifies this
      ensures Valid() && nextId == old(nextId)
      ensures code == NotFound <==> id !in old(bookings)
      ensures code == Forbidden <==> id in old(bookings) && old(bookings)[id].ownerId != userId
      ensures code == BadRequest <==>
        id in old(bookings) && old(bookings)[id].ownerId == userId && old(bookings)[id].status != Completed
      ensures code == Ok <==>
        id in old(bookings) && old(bookings)[id].ownerId == userId && old(bookings)[id].status == Completed
      ensures code != Ok ==> bookings == old(bookings)
      ensures code == Ok ==>
        bookings == old(bookings)[id := old(bookings)[id].(rating := Saved(rating, old(bookings)[id].rating),
                                                           reviewText := Saved(reviewText, old(bookings)[id].reviewText))]
    {
      if id !in bookings {
        return NotFound;
      }
      var booking := bookings[id];
      if booking.ownerId != userId {
        return Forbidden;
      }
      if booking.status != Completed {
        return BadRequest;
      }
      booking := booking.(rating := Saved(rating, booking.rating), reviewText := Saved(reviewText, booking.reviewText));
      bookings := bookings[id := booking];
      code := Ok;
    }
  }
}

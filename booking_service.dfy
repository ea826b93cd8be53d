/** The booking service over an in-memory booking repository: requests are
    refused when they overlap an APPROVED booking of the same offer, and
    approve/cancel load a booking, run its transition for the current actor
    and store it again. */
module BookingService {
  import opened Results
  import opened Dates
  import opened Bookings

  /** Two bookings overlap when their inclusive [from, to] ranges meet. */
  predicate Overlaps(a: BookingRecord, b: BookingRecord) {
    a.from <= b.to && b.from <= a.to
  }

  /** `existing` blocks `candidate`: it is APPROVED, on the same offer, and
      overlaps it. REQUEST and CANCELED bookings never block. */
  predicate ConflictsWith(existing: BookingRecord, candidate: BookingRecord) {
    existing.state == Approved && existing.offer.id == candidate.offer.id && Overlaps(existing, candidate)
  }

  predicate HasApprovedConflict(bookings: map<int, BookingRecord>, candidate: BookingRecord) {
    exists id | id in bookings :: ConflictsWith(bookings[id], candidate)
  }

  /** No two APPROVED bookings of one offer overlap. */
  ghost predicate NoApprovedOverlap(bookings: map<int, BookingRecord>) {
    forall i, j | i in bookings && j in bookings && i != j && bookings[j].state == Approved ::
      !ConflictsWith(bookings[i], bookings[j])
  }

  /** Overlap is symmetric. */
  lemma OverlapsSymmetric(a: BookingRecord, b: BookingRecord)
    ensures Overlaps(a, b) <==> Overlaps(b, a)
  {
  }

  /** `t` lies within the inclusive range of `b`. */
  predicate Covers(b: BookingRecord, t: int) {
    b.from <= t <= b.to
  }

  /** For well-formed ranges, overlap means sharing an instant. */
  lemma OverlapsIffSharedInstant(a: BookingRecord, b: BookingRecord)
    requires a.from <= a.to && b.from <= b.to
    ensures Overlaps(a, b) <==> exists t :: Covers(a, t) && Covers(b, t)
  {
    if Overlaps(a, b) {
      var t := Late(a.from, b.from);
      assert Covers(a, t) && Covers(b, t);
    }
  }

  /** A booking of offer `offer` covering days `first` to `last` (counted
      from the epoch), normalised as the entity normalises it. */
  function DayBooking(offer: OfferRef, requester: AccountId, first: int, last: int, state: State): BookingRecord {
    BookingRecord(0, first * DAY, last * DAY + DAY - 1, offer, requester, state)
  }

  /** For whole-day bookings, overlap is overlap of the day ranges. */
  lemma DayBookingsOverlap(offer: OfferRef, r1: AccountId, r2: AccountId, s1: State, s2: State,
                           first1: int, last1: int, first2: int, last2: int)
    ensures Overlaps(DayBooking(offer, r1, first1, last1, s1), DayBooking(offer, r2, first2, last2, s2))
        <==> first1 <= last2 && first2 <= last1
  {
  }

  /** The conflicting cases of the service tests: against an APPROVED
      booking of days 3..7 (or 2..5, or 4..5), requests for 2..5, 3..7 and
      4..5 are refused; REQUEST siblings and a disjoint 8..10 are not. */
  lemma ConflictCases(offer: OfferRef, r1: AccountId, r2: AccountId)
    ensures HasApprovedConflict(map[1 := DayBooking(offer, r1, 3, 7, Approved)], DayBooking(offer, r2, 2, 5, Request))
    ensures HasApprovedConflict(map[1 := DayBooking(offer, r1, 2, 5, Approved)], DayBooking(offer, r2, 3, 7, Request))
    ensures HasApprovedConflict(map[1 := DayBooking(offer, r1, 4, 5, Approved)], DayBooking(offer, r2, 3, 7, Request))
    ensures HasApprovedConflict(map[1 := DayBooking(offer, r1, 3, 7, Approved)], DayBooking(offer, r2, 4, 5, Request))
    ensures !HasApprovedConflict(map[1 := DayBooking(offer, r1, 3, 7, Request)], DayBooking(offer, r2, 3, 7, Request))
    ensures !HasApprovedConflict(map[1 := DayBooking(offer, r1, 3, 7, Approved)], DayBooking(offer, r2, 8, 10, Request))
  {
    DayBookingsOverlap(offer, r1, r2, Approved, Request, 3, 7, 2, 5);
    DayBookingsOverlap(offer, r1, r2, Approved, Request, 2, 5, 3, 7);
    DayBookingsOverlap(offer, r1, r2, Approved, Request, 4, 5, 3, 7);
    DayBookingsOverlap(offer, r1, r2, Approved, Request, 3, 7, 4, 5);
    DayBookingsOverlap(offer, r1, r2, Approved, Request, 3, 7, 8, 10);
    var m := map[1 := DayBooking(offer, r1, 3, 7, Approved)];
    assert ConflictsWith(m[1], DayBooking(offer, r2, 2, 5, Request));
    assert ConflictsWith(m[1], DayBooking(offer, r2, 4, 5, Request));
    var m2 := map[1 := DayBooking(offer, r1, 2, 5, Approved)];
    assert ConflictsWith(m2[1], DayBooking(offer, r2, 3, 7, Request));
    var m3 := map[1 := DayBooking(offer, r1, 4, 5, Approved)];
    assert ConflictsWith(m3[1], DayBooking(offer, r2, 3, 7, Request));
  }

  /** Storing a booking in REQUEST keeps the no-overlap invariant. */
  lemma StoreRequestKeepsNoOverlap(bookings: map<int, BookingRecord>, id: int, rec: BookingRecord)
    requires NoApprovedOverlap(bookings)
    requires rec.state == Request
    ensures NoApprovedOverlap(bookings[id := rec])
  {
  }

  /** Canceling a booking keeps the no-overlap invariant. */
  lemma CancelKeepsNoOverlap(bookings: map<int, BookingRecord>, id: int)
    requires id in bookings
    requires NoApprovedOverlap(bookings)
    ensures NoApprovedOverlap(bookings[id := bookings[id].(state := Canceled)])
  {
  }

  /** Approving a booking that no APPROVED booking blocks keeps the invariant.
      The service does not make this check when approving. */
  lemma ApproveUnblockedKeepsNoOverlap(bookings: map<int, BookingRecord>, id: int)
    requires id in bookings && bookings[id].state == Request
    requires NoApprovedOverlap(bookings)
    requires !HasApprovedConflict(bookings, bookings[id])
    ensures NoApprovedOverlap(bookings[id := bookings[id].(state := Approved)])
  {
  }

  /** Without that check, approval can break the invariant: two overlapping
      requests for one offer are both accepted and both approved. */
  lemma ApprovalCanBreakNoOverlap(offer: OfferRef, r1: AccountId, r2: AccountId)
    ensures var m := map[1 := DayBooking(offer, r1, 3, 7, Request).(id := 1),
                         2 := DayBooking(offer, r2, 3, 7, Request).(id := 2)];
            && NoApprovedOverlap(m)
            && !HasApprovedConflict(m - {2}, m[2])
            && !NoApprovedOverlap(m[1 := m[1].(state := Approved)][2 := m[2].(state := Approved)])
  {
    var m := map[1 := DayBooking(offer, r1, 3, 7, Request).(id := 1),
                 2 := DayBooking(offer, r2, 3, 7, Request).(id := 2)];
    var m' := m[1 := m[1].(state := Approved)][2 := m[2].(state := Approved)];
    DayBookingsOverlap(offer, r1, r2, Approved, Approved, 3, 7, 3, 7);
    assert ConflictsWith(m'[1], m'[2]) && m'[2].state == Approved;
  }

  /** The booking repository and the id sequence it draws from. */
  class BookingStore {
    var bookings: map<int, BookingRecord>
    var nextId: int

    /** Ids are positive, below `nextId`, and match their row. */
    ghost predicate Valid()
      reads this
    {
      && nextId >= 1
      && forall id | id in bookings :: 1 <= id < nextId && bookings[id].id == id
    }

    constructor ()
      ensures Valid() && bookings == map[] && nextId == 1
    {
      bookings := map[];
      nextId := 1;
    }

    /** Stores `candidate` under a fresh id in state REQUEST, unless an
        APPROVED booking of the same offer overlaps it. */
    method RequestBooking(candidate: Booking) returns (r: Result<BookingRecord>)
      requires Valid()
      modifies this
      ensures Valid()
      ensures r.Success? <==> !HasApprovedConflict(old(bookings), candidate.Snapshot())
      ensures r.Failure? ==> r.error == InvalidBooking && bookings == old(bookings) && nextId == old(nextId)
      ensures r.Success? ==>
        && r.value == candidate.Snapshot().(id := old(nextId), state := Request)
        && r.value.id > 0 && r.value.id !in old(bookings)
        && bookings == old(bookings)[r.value.id := r.value]
      ensures NoApprovedOverlap(old(bookings)) ==> NoApprovedOverlap(bookings)
    {
      var rec := candidate.Snapshot();
      if HasApprovedConflict(bookings, rec) {
        return Failure(InvalidBooking);
      }
      rec := rec.(id := nextId, state := Request);
      if NoApprovedOverlap(bookings) {
        StoreRequestKeepsNoOverlap(bookings, nextId, rec);
      }
      bookings := bookings[nextId := rec];
      nextId := nextId + 1;
      return Success(rec);
    }

    /** Loads booking `id`, lets `actor` approve it, and stores it again. */
    method ApproveBooking(id: int, actor: AccountId) returns (r: Result<BookingRecord>)
      requires Valid()
      modifies this`bookings
      ensures Valid()
      ensures id !in old(bookings) ==> r == Failure(NotFound)
      ensures id in old(bookings) ==>
        (r.Success? <==> old(bookings)[id].state == Request && actor == old(bookings)[id].offer.owner)
      ensures r.Failure? ==> bookings == old(bookings)
      ensures r.Failure? && id in old(bookings) ==> r.error == InvalidStateTransition
      ensures r.Success? ==>
        && r.value == old(bookings)[id].(state := Approved)
        && bookings == old(bookings)[id := r.value]
    {
      if id !in bookings {
        return Failure(NotFound);
      }
      var b := new Booking.Load(bookings[id]);
      var outcome := b.Approve(actor);
      if outcome.Fail? {
        return Failure(outcome.error);
      }
      bookings := bookings[id := b.Snapshot()];
      return Success(b.Snapshot());
    }

    /** Loads booking `id`, lets `actor` cancel it, and stores it again. */
    method CancelBooking(id: int, actor: AccountId) returns (r: Result<BookingRecord>)
      requires Valid()
      modifies this`bookings
      ensures Valid()
      ensures id !in old(bookings) ==> r == Failure(NotFound)
      ensures id in old(bookings) ==>
        (r.Success? <==> old(bookings)[id].state != Canceled
                         && (actor == old(bookings)[id].offer.owner || actor == old(bookings)[id].requestedBy))
      ensures r.Failure? ==> bookings == old(bookings)
      ensures r.Failure? && id in old(bookings) ==> r.error == InvalidStateTransition
      ensures r.Success? ==>
        && r.value == old(bookings)[id].(state := Canceled)
        && bookings == old(bookings)[id := r.value]
      ensures NoApprovedOverlap(old(bookings)) ==> NoApprovedOverlap(bookings)
    {
      if id !in bookings {
        return Failure(NotFound);
      }
      var b := new Booking.Load(bookings[id]);
      var outcome := b.Cancel(actor);
      if outcome.Fail? {
        return Failure(outcome.error);
      }
      if NoApprovedOverlap(bookings) {
        CancelKeepsNoOverlap(bookings, id);
      }
      bookings := bookings[id := b.Snapshot()];
      return Success(b.Snapshot());
    }
  }

  /** The service scenarios: a request is stored with a positive id in
      REQUEST, the owner approves it, then cancels it; a second request for
      an overlapping interval is refused once the first is approved. */
  method ServiceScenario(today: int)
  {
    var owner, requester, other := 1, 2, 3;
    var offer := OfferRef(1, owner);
    var store := new BookingStore();

    var created := Booking.Create(Some(today + 4 * DAY), Some(today + 5 * DAY), Some(offer), Some(requester), today);
    assert created.Success?;
    var saved := store.RequestBooking(created.value);
    assert saved.Success? && saved.value.id > 0 && saved.value.state == Request;
    var id := saved.value.id;

    // A second request for the same days is accepted while the first is in REQUEST.
    var sibling := store.RequestBooking(created.value);
    assert sibling.Success? && sibling.value.id != id;

    var approved := store.ApproveBooking(id, owner);
    assert approved.Success? && store.bookings[id].state == Approved;

    var second := Booking.Create(Some(today + 3 * DAY), Some(today + 7 * DAY), Some(offer), Some(other), today);
    assert second.Success?;
    assert ConflictsWith(store.bookings[id], second.value.Snapshot());
    var refused := store.RequestBooking(second.value);
    assert refused == Failure(InvalidBooking);

    var canceled := store.CancelBooking(id, owner);
    assert canceled.Success? && store.bookings[id].state == Canceled;
  }
}

/** The booking entity: a request to rent an offer for an interval of days,
    with a lifecycle REQUEST -> APPROVED -> CANCELED -> REQUEST whose
    transitions are guarded by who is asking. */
module Bookings {
  import opened Results
  import opened Dates

  /** Accounts are compared by identity only. */
  type AccountId = int

  /** What a booking knows of its offer: its identity and its owner. */
  datatype OfferRef = OfferRef(id: int, owner: AccountId)

  datatype State = Request | Approved | Canceled

  datatype Transition = Approve | Cancel | Reopen

  /** A stored booking (a row of the booking repository). The id is 0 until
      the booking service assigns one. */
  datatype BookingRecord = BookingRecord(
    id: int,
    from: int,
    to: int,
    offer: OfferRef,
    requestedBy: AccountId,
    state: State)

  /** The transition table: the state `t` leads to when `actor` asks for it
      on a booking in state `s` of an offer owned by `owner` and requested by
      `requester`, or None when the transition is refused. */
  function Next(t: Transition, s: State, actor: AccountId, owner: AccountId, requester: AccountId): Option<State>
  {
    match t
    case Approve =>
      if s == Request && actor == owner then Some(Approved) else None
    case Cancel =>
      if (s == Request || s == Approved) && (actor == owner || actor == requester) then Some(Canceled) else None
    case Reopen =>
      if s == Canceled && actor == requester then Some(Request) else None
  }

  /** Only the owner approves, and only a booking in REQUEST. */
  lemma ApproveGuard(s: State, actor: AccountId, owner: AccountId, requester: AccountId)
    ensures Next(Approve, s, actor, owner, requester).Some? <==> s == Request && actor == owner
    ensures Next(Approve, s, actor, owner, requester).Some? ==> Next(Approve, s, actor, owner, requester).value == Approved
  {
  }

  /** The owner or the requester cancels a booking in REQUEST or APPROVED;
      anybody else, and every cancel of a CANCELED booking, is refused. */
  lemma CancelGuard(s: State, actor: AccountId, owner: AccountId, requester: AccountId)
    ensures Next(Cancel, s, actor, owner, requester).Some?
        <==> s != Canceled && (actor == owner || actor == requester)
    ensures Next(Cancel, s, actor, owner, requester).Some? ==> Next(Cancel, s, actor, owner, requester).value == Canceled
    ensures Next(Cancel, Canceled, actor, owner, requester).None?
  {
  }

  /** Only the requester reopens, and only a CANCELED booking. */
  lemma ReopenGuard(s: State, actor: AccountId, owner: AccountId, requester: AccountId)
    ensures Next(Reopen, s, actor, owner, requester).Some? <==> s == Canceled && actor == requester
    ensures Next(Reopen, s, actor, owner, requester).Some? ==> Next(Reopen, s, actor, owner, requester).value == Request
  {
  }

  /** Every accepted transition moves the booking to a different state. */
  lemma TransitionsMove(t: Transition, s: State, actor: AccountId, owner: AccountId, requester: AccountId)
    ensures Next(t, s, actor, owner, requester).Some? ==> Next(t, s, actor, owner, requester).value != s
  {
  }

  /** Validation of `new Booking(from, to, offer, requestedBy)`: every
      argument must be present, `to` may not be before `from`, and `from` may
      not lie before the current day. On success `from` is moved to the start
      of its day and `to` to the end of its day. */
  function CheckRequest(from: Option<int>, to: Option<int>, offer: Option<OfferRef>,
                        requestedBy: Option<AccountId>, today: int): (r: Result<BookingRecord>)
    ensures r.Success? <==>
      && from.Some? && to.Some? && offer.Some? && requestedBy.Some?
      && from.value <= to.value
      && BeginningOfDay(today) <= from.value
    ensures r.Failure? ==> r.error == IllegalArgument
    ensures r.Success? ==>
      && r.value.state == Request
      && r.value.offer == offer.value
      && r.value.requestedBy == requestedBy.value
    ensures r.Success? ==> IsDayStart(r.value.from) && r.value.from <= from.value < r.value.from + DAY
    ensures r.Success? ==> IsDayStart(r.value.to + 1) && r.value.to - DAY < to.value <= r.value.to
    ensures r.Success? ==> r.value.from < r.value.to && BeginningOfDay(today) <= r.value.from
  {
    if from.None? || to.None? || offer.None? || requestedBy.None? then
      Failure(IllegalArgument)
    else if to.value < from.value then
      Failure(IllegalArgument)
    else if from.value < BeginningOfDay(today) then
      Failure(IllegalArgument)
    else
      NormalisedOrder(from.value, to.value);
      Success(BookingRecord(0, BeginningOfDay(from.value), EndOfDay(to.value), offer.value, requestedBy.value, Request))
  }

  /** A booking entity; its transitions change `state` in place. */
  class Booking {
    var id: int
    var from: int
    var to: int
    var offer: OfferRef
    var requestedBy: AccountId
    var state: State

    /** The no-argument form: a booking starts in REQUEST. Its other fields,
        null in the source, are left at 0. */
    constructor ()
      ensures state == Request
    {
      id, from, to := 0, 0, 0;
      offer := OfferRef(0, 0);
      requestedBy := 0;
      state := Request;
    }

    /** A booking loaded from its stored row. */
    constructor Load(rec: BookingRecord)
      ensures Snapshot() == rec
    {
      id, from, to := rec.id, rec.from, rec.to;
      offer := rec.offer;
      requestedBy := rec.requestedBy;
      state := rec.state;
    }

    /** The validating form `new Booking(from, to, offer, requestedBy)`. */
    static method Create(from: Option<int>, to: Option<int>, offer: Option<OfferRef>,
                         requestedBy: Option<AccountId>, today: int) returns (r: Result<Booking>)
      ensures r.Success? <==> CheckRequest(from, to, offer, requestedBy, today).Success?
      ensures r.Failure? ==> r.error == IllegalArgument
      ensures r.Success? ==> fresh(r.value) && r.value.Snapshot() == CheckRequest(from, to, offer, requestedBy, today).value
    {
      var checked := CheckRequest(from, to, offer, requestedBy, today);
      if checked.Failure? {
        return Failure(checked.error);
      }
      var b := new Booking.Load(checked.value);
      return Success(b);
    }

    /** The row this booking is stored as. */
    function Snapshot(): BookingRecord
      reads this
    {
      BookingRecord(id, from, to, offer, requestedBy, state)
    }

    /** The owner approves a booking in REQUEST; anything else fails and
        leaves the state as it was. */
    method Approve(actor: AccountId) returns (r: Outcome)
      modifies this`state
      ensures r.Pass? <==> old(state) == Request && actor == offer.owner
      ensures r.Fail? ==> r.error == InvalidStateTransition
      ensures state == (if r.Pass? then Approved else old(state))
      ensures Next(Transition.Approve, old(state), actor, offer.owner, requestedBy) == (if r.Pass? then Some(state) else None)
    {
      if state == Request && actor == offer.owner {
        state := Approved;
        return Pass;
      }
      return Fail(InvalidStateTransition);
    }

    /** The owner or the requester cancels a booking in REQUEST or APPROVED;
        anything else fails and leaves the state as it was. */
    method Cancel(actor: AccountId) returns (r: Outcome)
      modifies this`state
      ensures r.Pass? <==> old(state) != Canceled && (actor == offer.owner || actor == requestedBy)
      ensures r.Fail? ==> r.error == InvalidStateTransition
      ensures state == (if r.Pass? then Canceled else old(state))
      ensures Next(Transition.Cancel, old(state), actor, offer.owner, requestedBy) == (if r.Pass? then Some(state) else None)
    {
      if (state == Request || state == Approved) && (actor == offer.owner || actor == requestedBy) {
        state := Canceled;
        return Pass;
      }
      return Fail(InvalidStateTransition);
    }

    /** The requester reopens a CANCELED booking; anything else fails and
        leaves the state as it was. */
    method Reopen(actor: AccountId) returns (r: Outcome)
      modifies this`state
      ensures r.Pass? <==> old(state) == Canceled && actor == requestedBy
      ensures r.Fail? ==> r.error == InvalidStateTransition
      ensures state == (if r.Pass? then Request else old(state))
      ensures Next(Transition.Reopen, old(state), actor, offer.owner, requestedBy) == (if r.Pass? then Some(state) else None)
    {
      if state == Canceled && actor == requestedBy {
        state := Request;
        return Pass;
      }
      return Fail(InvalidStateTransition);
    }
  }

  /** One lifecycle: a valid booking is approved by the owner, canceled by
      the requester and reopened by the requester; the owner may not reopen,
      and nobody else may cancel. A second booking is canceled straight from
      REQUEST by its owner. */
  method LifecycleScenario(today: int)
  {
    var owner, requester, somebodyElse := 1, 2, 3;
    var created := Booking.Create(Some(today), Some(today + 3 * DAY), Some(OfferRef(1, owner)), Some(requester), today);
    assert created.Success?;
    var b := created.value;
    assert b.state == Request;

    var r := b.Approve(requester);
    assert r.Fail? && b.state == Request;
    r := b.Approve(owner);
    assert r.Pass? && b.state == Approved;
    r := b.Cancel(somebodyElse);
    assert r.Fail? && b.state == Approved;
    r := b.Cancel(requester);
    assert r.Pass? && b.state == Canceled;
    r := b.Cancel(owner);
    assert r.Fail? && b.state == Canceled;
    r := b.Reopen(owner);
    assert r.Fail? && b.state == Canceled;
    r := b.Reopen(requester);
    assert r.Pass? && b.state == Request;

    var second := new Booking.Load(BookingRecord(0, 0, DAY - 1, OfferRef(1, owner), requester, Request));
    r := second.Cancel(somebodyElse);
    assert r.Fail? && second.state == Request;
    r := second.Cancel(owner);
    assert r.Pass? && second.state == Canceled;
  }
}

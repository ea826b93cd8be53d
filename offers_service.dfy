/** The offer service helpers: the days an offer is booked within a window,
    the query chosen for an offer search, the population of a new offer and
    the owner-only listing of an offer's bookings. */
module OffersService {
  import opened Results
  import opened Dates
  import opened Bookings

  // ---------------------------------------------------------------------
  // Offers

  /** A file uploaded with a new offer; only its original name is used here. */
  datatype ImageFile = ImageFile(originalFilename: string)

  /** Number of image slots of an offer (image0 .. image5). */
  const IMAGE_SLOTS: nat := 6

  /** An offer entity, filled in field by field when it is created. */
  class Offer {
    var id: int
    var owner: AccountId
    var title: string
    var price: string
    var gender: string
    var description: string
    var street: string
    var number: string
    var postcode: string
    var city: string
    /** The names of image0 .. image5; None for a field never set. */
    var images: seq<Option<string>>
    var bookings: seq<BookingRecord>

    constructor ()
      ensures images == seq(IMAGE_SLOTS, _ => None) && bookings == []
    {
      id, owner := 0, 0;
      title, price, gender, description := "", "", "", "";
      street, number, postcode, city := "", "", "", "";
      images := seq(IMAGE_SLOTS, _ => None);
      bookings := [];
    }
  }

  function NameOf(f: Option<ImageFile>): Option<string> {
    if f.Some? then Some(f.value.originalFilename) else None
  }

  /** The image fields `createOffer` produces AS WRITTEN: the array is
      checked to hold 1 to 6 entries, but then images[0] is dereferenced and
      images[1] .. images[5] are indexed unconditionally. */
  function ImageFieldsAsWritten(images: Option<seq<Option<ImageFile>>>): (r: Result<seq<Option<string>>>)
    ensures r.Success? <==> images.Some? && |images.value| == IMAGE_SLOTS && images.value[0].Some?
    ensures images.None? || |images.value| == 0 || |images.value| > IMAGE_SLOTS ==> r == Failure(IllegalArgument)
    ensures images.Some? && 1 <= |images.value| <= IMAGE_SLOTS && images.value[0].None? ==> r == Failure(NullPointer)
    ensures images.Some? && 1 <= |images.value| < IMAGE_SLOTS && images.value[0].Some? ==> r == Failure(IndexOutOfBounds)
    ensures r.Success? ==> |r.value| == IMAGE_SLOTS && forall k | 0 <= k < IMAGE_SLOTS :: r.value[k] == NameOf(images.value[k])
  {
    if images.None? || |images.value| == 0 || |images.value| > IMAGE_SLOTS then
      Failure(IllegalArgument)
    else if images.value[0].None? then
      Failure(NullPointer)
    else if |images.value| < IMAGE_SLOTS then
      Failure(IndexOutOfBounds)
    else
      Success(seq(IMAGE_SLOTS, k requires 0 <= k < IMAGE_SLOTS => NameOf(images.value[k])))
  }

  /** The image fields as intended: 1 to 6 files, the first one present;
      slot k takes the name of file k when there is one, else stays unset. */
  function ImageFields(images: Option<seq<Option<ImageFile>>>): (r: Result<seq<Option<string>>>)
    ensures r.Success? <==> images.Some? && 1 <= |images.value| <= IMAGE_SLOTS && images.value[0].Some?
    ensures images.None? || |images.value| == 0 || |images.value| > IMAGE_SLOTS ==> r == Failure(IllegalArgument)
    ensures r.Success? ==> |r.value| == IMAGE_SLOTS && r.value[0].Some?
    ensures r.Success? ==> forall k | 0 <= k < IMAGE_SLOTS ::
      r.value[k] == if k < |images.value| then NameOf(images.value[k]) else None
  {
    if images.None? || |images.value| == 0 || |images.value| > IMAGE_SLOTS then
      Failure(IllegalArgument)
    else if images.value[0].None? then
      Failure(NullPointer)
    else
      Success(seq(IMAGE_SLOTS, k requires 0 <= k < IMAGE_SLOTS =>
        if k < |images.value| then NameOf(images.value[k]) else None))
  }

  /** As written, an offer with a single image passes the 1-to-6 check and
      then fails on images[1]; the intended rule accepts it. */
  lemma SingleImageRejectedAsWritten(f: ImageFile)
    ensures ImageFieldsAsWritten(Some([Some(f)])) == Failure(IndexOutOfBounds)
    ensures ImageFields(Some([Some(f)])).Success?
    ensures ImageFields(Some([Some(f)])).value == [Some(f.originalFilename), None, None, None, None, None]
  {
  }

  /** The intended rule only differs from the code as written where the
      code fails on a short array; where the intended rule fails, both fail
      with the same error. */
  lemma ImageFieldsExtendAsWritten(images: Option<seq<Option<ImageFile>>>)
    ensures ImageFieldsAsWritten(images).Success? ==> ImageFields(images) == ImageFieldsAsWritten(images)
    ensures ImageFieldsAsWritten(images).Failure? && ImageFields(images).Success? ==>
      1 <= |images.value| < IMAGE_SLOTS && ImageFieldsAsWritten(images) == Failure(IndexOutOfBounds)
    ensures ImageFields(images).Failure? ==> ImageFieldsAsWritten(images) == ImageFields(images)
  {
    if ImageFieldsAsWritten(images).Success? {
      var written, intended := ImageFieldsAsWritten(images).value, ImageFields(images).value;
      assert forall k | 0 <= k < IMAGE_SLOTS :: written[k] == intended[k];
      assert written == intended;
    }
  }

  /** Sets image field k to the name of file k for every file present,
      leaving the other fields as they were. */
  method SetImageNames(fields: seq<Option<string>>, files: seq<Option<ImageFile>>)
    returns (names: seq<Option<string>>)
    requires |fields| == IMAGE_SLOTS && 1 <= |files| <= IMAGE_SLOTS && files[0].Some?
    ensures |names| == IMAGE_SLOTS
    ensures forall k | 0 <= k < IMAGE_SLOTS ::
      names[k] == if k < |files| && files[k].Some? then NameOf(files[k]) else fields[k]
  {
    names := fields[0 := Some(files[0].value.originalFilename)];
    if 1 < |files| && files[1].Some? {
      names := names[1 := Some(files[1].value.originalFilename)];
    }
    if 2 < |files| && files[2].Some? {
      names := names[2 := Some(files[2].value.originalFilename)];
    }
    if 3 < |files| && files[3].Some? {
      names := names[3 := Some(files[3].value.originalFilename)];
    }
    if 4 < |files| && files[4].Some? {
      names := names[4 := Some(files[4].value.originalFilename)];
    }
    if 5 < |files| && files[5].Some? {
      names := names[5 := Some(files[5].value.originalFilename)];
    }
  }

  /** `createOffer`: rejects a missing, empty or over-long image array, then
      fills a new offer owned by the current user from the arguments and the
      image names (under the intended rule for the image slots). */
  method CreateOffer(title: string, price: string, gender: string, description: string,
                     street: string, number: string, postcode: string, city: string,
                     images: Option<seq<Option<ImageFile>>>, currentUser: AccountId)
    returns (r: Result<Offer>)
    ensures r.Success? <==> ImageFields(images).Success?
    ensures r.Failure? ==> r.error == ImageFields(images).error
    ensures r.Success? ==>
      && fresh(r.value)
      && r.value.owner == currentUser
      && r.value.title == title && r.value.price == price && r.value.gender == gender
      && r.value.description == description && r.value.street == street && r.value.number == number
      && r.value.postcode == postcode && r.value.city == city
      && r.value.images == ImageFields(images).value
      && r.value.bookings == []
  {
    var offer := new Offer();
    if images.None? || |images.value| == 0 || |images.value| > IMAGE_SLOTS {
      return Failure(IllegalArgument);
    }
    var files := images.value;
    offer.owner := currentUser;
    offer.title := title;
    offer.price := price;
    offer.gender := gender;
    offer.description := description;
    offer.street := street;
    offer.number := number;
    offer.postcode := postcode;
    offer.city := city;

    if files[0].None? {
      return Failure(NullPointer);
    }
    var names := SetImageNames(offer.images, files);
    offer.images := names;
    return Success(offer);
  }

  /** `getOfferBookings`: an unknown offer is an illegal argument, somebody
      other than its owner is refused, and the owner gets its bookings. */
  function GetOfferBookings(offers: map<int, Offer>, offerId: int, currentUser: AccountId): (r: Result<seq<BookingRecord>>)
    reads offers.Values
    ensures offerId !in offers ==> r == Failure(IllegalArgument)
    ensures offerId in offers ==> (r.Success? <==> offers[offerId].owner == currentUser)
    ensures offerId in offers && r.Failure? ==> r.error == Authorization
    ensures r.Success? ==> r.value == offers[offerId].bookings
  {
    if offerId !in offers then
      Failure(IllegalArgument)
    else if offers[offerId].owner != currentUser then
      Failure(Authorization)
    else
      Success(offers[offerId].bookings)
  }

  // ---------------------------------------------------------------------
  // Booked days

  /** The days emitted for one booking: starting at `start`, one day at a
      time, while strictly before `end`. */
  function DayRun(start: int, end: int): seq<int>
    decreases end - start
  {
    if start < end then [start] + DayRun(start + DAY, end) else []
  }

  /** The run of one booking clamped to the window [startDate, endDate]. */
  function ClampedRun(b: BookingRecord, startDate: int, endDate: int): seq<int> {
    DayRun(BeginningOfDay(Late(b.from, startDate)), EndOfDay(Early(b.to, endDate)))
  }

  /** All bookings' clamped runs, concatenated in booking order. */
  function BookedDays(bookings: seq<BookingRecord>, startDate: int, endDate: int): seq<int> {
    if bookings == [] then []
    else BookedDays(bookings[..|bookings| - 1], startDate, endDate)
         + ClampedRun(bookings[|bookings| - 1], startDate, endDate)
  }

  /** The k-th emitted day is k days after the start, and every one of them
      lies before the end. */
  lemma {:induction false} DayRunAt(start: int, end: int, k: nat)
    requires k < |DayRun(start, end)|
    ensures DayRun(start, end)[k] == start + k * DAY
    ensures start <= DayRun(start, end)[k] < end
    decreases end - start
  {
    if k > 0 {
      DayRunAt(start + DAY, end, k - 1);
    }
  }

  /** Emitted days ascend exactly one day apart, starting at `start`. */
  lemma DayRunSteps(start: int, end: int)
    ensures DayRun(start, end) != [] <==> start < end
    ensures DayRun(start, end) != [] ==> DayRun(start, end)[0] == start
    ensures forall k | 0 <= k < |DayRun(start, end)| - 1 :: DayRun(start, end)[k + 1] == DayRun(start, end)[k] + DAY
  {
    var run := DayRun(start, end);
    forall k | 0 <= k < |run| - 1
      ensures run[k + 1] == run[k] + DAY
    {
      DayRunAt(start, end, k);
      DayRunAt(start, end, k + 1);
    }
  }

  /** Exactly the instants a whole number of days after `start` and before
      `end` are emitted. */
  lemma {:induction false} DayRunMembers(start: int, end: int, t: int)
    ensures t in DayRun(start, end) <==> start <= t < end && (t - start) % DAY == 0
    decreases end - start
  {
    if start < end {
      DayRunMembers(start + DAY, end, t);
      assert start < t && (t - start) % DAY == 0 ==> start + DAY <= t by {
        if start < t && (t - start) % DAY == 0 {
          DayStartsApart(0, t - start);
        }
      }
      assert (t - start) % DAY == (t - (start + DAY)) % DAY by {
        ShiftByDay(t - start - DAY);
      }
    }
  }

  lemma ShiftByDay(x: int)
    ensures (x + DAY) % DAY == x % DAY
  {
  }

  /** Every day a booking contributes is the start of a day inside both the
      booking and the window. */
  lemma ClampedRunInWindow(b: BookingRecord, startDate: int, endDate: int, t: int)
    requires t in ClampedRun(b, startDate, endDate)
    ensures IsDayStart(t)
    ensures BeginningOfDay(Late(b.from, startDate)) <= t <= Early(b.to, endDate)
  {
    var s := BeginningOfDay(Late(b.from, startDate));
    var e := EndOfDay(Early(b.to, endDate));
    DayRunMembers(s, e, t);
    ShiftSum(s, t - s);
    var lastDay := BeginningOfDay(Early(b.to, endDate));
    if lastDay < t {
      DayStartsApart(lastDay, t);
    }
  }

  lemma ShiftSum(s: int, d: int)
    requires s % DAY == 0 && d % DAY == 0
    ensures (s + d) % DAY == 0
  {
  }

  /** A booking whose clamped start is not before its clamped end
      contributes nothing. */
  lemma EmptyClamp(b: BookingRecord, startDate: int, endDate: int)
    requires EndOfDay(Early(b.to, endDate)) <= BeginningOfDay(Late(b.from, startDate))
    ensures ClampedRun(b, startDate, endDate) == []
  {
  }

  /** An instant is reported exactly when some booking's clamped run holds it,
      and each booking adds all of its run (duplicates kept). */
  lemma {:induction false} BookedDaysMembers(bookings: seq<BookingRecord>, startDate: int, endDate: int, t: int)
    ensures t in BookedDays(bookings, startDate, endDate)
        <==> exists i | 0 <= i < |bookings| :: t in ClampedRun(bookings[i], startDate, endDate)
  {
    if bookings != [] {
      var n := |bookings| - 1;
      var prefix := bookings[..n];
      BookedDaysMembers(prefix, startDate, endDate, t);
      if t in BookedDays(bookings, startDate, endDate) {
        if t in BookedDays(prefix, startDate, endDate) {
          var i :| 0 <= i < |prefix| && t in ClampedRun(prefix[i], startDate, endDate);
          assert bookings[i] == prefix[i];
        }
      } else {
        forall i | 0 <= i < |bookings|
          ensures t !in ClampedRun(bookings[i], startDate, endDate)
        {
          if i < n {
            assert bookings[i] == prefix[i];
          }
        }
      }
    }
  }

  /** The report for one more booking is the earlier report followed by that
      booking's whole clamped run. */
  lemma BookedDaysAppend(bookings: seq<BookingRecord>, b: BookingRecord, startDate: int, endDate: int)
    ensures BookedDays(bookings + [b], startDate, endDate)
         == BookedDays(bookings, startDate, endDate) + ClampedRun(b, startDate, endDate)
  {
  }

  /** `getBookedDaysForInterval`: the offer must exist and both window ends
      be given; then, for each approved booking in order, every day from
      the start of its clamped start while before the end of its clamped end
      is appended to the result. `approved` is what the booking service's
      lookup of the offer's approved bookings in the window returns. */
  method GetBookedDaysForInterval(offers: map<int, Offer>, offerId: int, startDate: Option<int>,
                                  endDate: Option<int>, approved: seq<BookingRecord>)
    returns (r: Result<seq<int>>)
    ensures r.Failure? <==> offerId !in offers || startDate.None? || endDate.None?
    ensures r.Failure? ==> r.error == IllegalArgument
    ensures r.Success? ==> r.value == BookedDays(approved, startDate.value, endDate.value)
  {
    if offerId !in offers || startDate.None? || endDate.None? {
      return Failure(IllegalArgument);
    }
    var windowStart, windowEnd := startDate.value, endDate.value;
    var result: seq<int> := [];
    var i := 0;
    while i < |approved|
      invariant 0 <= i <= |approved|
      invariant result == BookedDays(approved[..i], windowStart, windowEnd)
    {
      var booking := approved[i];
      var day := BeginningOfDay(Late(booking.from, windowStart));
      var last := EndOfDay(Early(booking.to, windowEnd));
      while day < last
        invariant result + DayRun(day, last)
               == BookedDays(approved[..i], windowStart, windowEnd) + ClampedRun(booking, windowStart, windowEnd)
        decreases last - day
      {
        result := result + [day];
        day := day + DAY;
      }
      assert approved[..i + 1] == approved[..i] + [booking];
      BookedDaysAppend(approved[..i], booking, windowStart, windowEnd);
      i := i + 1;
    }
    assert approved[..i] == approved;
    return Success(result);
  }

  // ---------------------------------------------------------------------
  // Listing offers

  const PAGE_SIZE: int := 12

  /** Java's 32-bit int. */
  newtype int32 = x: int | -0x8000_0000 <= x < 0x8000_0000

  const INT32_MIN: int32 := -0x8000_0000
  const INT32_MAX: int32 := 0x7fff_ffff

  datatype Direction = Asc | Desc

  /** A request for one page of results, sorted by `property`. */
  datatype PageRequest = PageRequest(page: int32, size: int, direction: Direction, property: string)

  /** The repository queries an offer search can issue. */
  datatype OfferQuery =
    | FindAll(pageRequest: PageRequest)
    | FindByGenderIn(genders: seq<string>, pageRequest: PageRequest)
    | FindByCityIgnoreCaseOrPostcodeIgnoreCase(city: string, postcode: string, pageRequest: PageRequest)
    | FindByGenderAndLocation(genders: seq<string>, location: string, pageRequest: PageRequest)

  /** Null or "" counts as no filter. */
  predicate IsEmpty(s: Option<string>) {
    s.None? || s.value == ""
  }

  /** The gender filter "MF" names the genders "M" and "F": one
      single-character string per character, in order. */
  function GenderFiltersList(genderFilter: string): (r: seq<string>)
    ensures |r| == |genderFilter|
    ensures forall i | 0 <= i < |r| :: r[i] == [genderFilter[i]]
  {
    if genderFilter == [] then []
    else [[genderFilter[0]]] + GenderFiltersList(genderFilter[1..])
  }

  function Join(parts: seq<string>): string {
    if parts == [] then [] else parts[0] + Join(parts[1..])
  }

  /** Joining the split filter gives the filter back. */
  lemma {:induction false} GenderFiltersJoin(genderFilter: string)
    ensures Join(GenderFiltersList(genderFilter)) == genderFilter
  {
    if genderFilter != [] {
      GenderFiltersJoin(genderFilter[1..]);
      assert GenderFiltersList(genderFilter)[1..] == GenderFiltersList(genderFilter[1..]);
    }
  }

  /** The page for the 1-based `pageNumber`: index pageNumber - 1 (in
      32-bit arithmetic), 12 offers, newest id first. A negative index is
      refused with an illegal-argument failure. */
  function GetPage(pageNumber: int32): (r: Result<PageRequest>)
    ensures r.Success? <==> pageNumber >= 1 || pageNumber == INT32_MIN
    ensures r.Failure? ==> r.error == IllegalArgument
    ensures r.Success? ==> r.value.size == PAGE_SIZE && r.value.direction == Desc && r.value.property == "id"
    ensures r.Success? && pageNumber >= 1 ==> r.value.page as int == pageNumber as int - 1
    ensures r.Success? && pageNumber == INT32_MIN ==> r.value.page == INT32_MAX
  {
    var index := if pageNumber == INT32_MIN then INT32_MAX else pageNumber - 1;
    if index < 0 then Failure(IllegalArgument)
    else Success(PageRequest(index, PAGE_SIZE, Desc, "id"))
  }

  /** `listOffers`: exactly one of four queries, chosen by which filters are
      empty; a location is matched against both city and postcode. */
  function ListOffers(genderFilter: Option<string>, location: Option<string>, pageNumber: int32): (r: Result<OfferQuery>)
    ensures r.Failure? <==> GetPage(pageNumber).Failure?
    ensures r.Failure? ==> r.error == IllegalArgument
    ensures r.Success? ==> r.value.pageRequest == GetPage(pageNumber).value
    ensures r.Success? ==> (r.value.FindAll? <==> IsEmpty(genderFilter) && IsEmpty(location))
    ensures r.Success? ==> (r.value.FindByGenderIn? <==> !IsEmpty(genderFilter) && IsEmpty(location))
    ensures r.Success? ==> (r.value.FindByCityIgnoreCaseOrPostcodeIgnoreCase? <==> IsEmpty(genderFilter) && !IsEmpty(location))
    ensures r.Success? ==> (r.value.FindByGenderAndLocation? <==> !IsEmpty(genderFilter) && !IsEmpty(location))
    ensures r.Success? && (r.value.FindByGenderIn? || r.value.FindByGenderAndLocation?) ==>
      r.value.genders == GenderFiltersList(genderFilter.value)
    ensures r.Success? && r.value.FindByCityIgnoreCaseOrPostcodeIgnoreCase? ==>
      r.value.city == location.value && r.value.postcode == location.value
    ensures r.Success? && r.value.FindByGenderAndLocation? ==> r.value.location == location.value
  {
    if IsEmpty(genderFilter) && IsEmpty(location) then
      var page :- GetPage(pageNumber);
      Success(FindAll(page))
    else if !IsEmpty(genderFilter) && IsEmpty(location) then
      var filters := GenderFiltersList(genderFilter.value);
      var page :- GetPage(pageNumber);
      Success(FindByGenderIn(filters, page))
    else if IsEmpty(genderFilter) && !IsEmpty(location) then
      var page :- GetPage(pageNumber);
      Success(FindByCityIgnoreCaseOrPostcodeIgnoreCase(location.value, location.value, page))
    else
      var filters := GenderFiltersList(genderFilter.value);
      var page :- GetPage(pageNumber);
      Success(FindByGenderAndLocation(filters, location.value, page))
  }
}

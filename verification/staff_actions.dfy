/**
 The action creators of the staff store: the slot-cache check, the choice
 between replaying cached slots and requesting fresh ones, the reshaping
 of the slots and bookings responses, and the staff records built when
 staff are fetched. HTTP responses are inputs; what the action creators
 dispatch is returned as a sequence of actions.
 */
module StaffActions {
  import opened JsKeys
  import opened StaffTypes

  // ---------------------------------------------------------------------
  // API response shapes
  // ---------------------------------------------------------------------

  /** One day of the availability response: a date and ISO slot timestamps. */
  datatype DaySlots = DaySlots(date: string, slots: seq<string>)

  /** One element of the availability response. */
  datatype ResourceAvailability = ResourceAvailability(availableSlots: seq<DaySlots>)

  /** The body of `GET /api/resources/{id}`. */
  datatype ResourceDetails = ResourceDetails(id: Id, name: string)

  /** The body of `GET /api/service`. */
  datatype Service = Service(resources: seq<Id>, duration: int, maxDuration: int)

  /** A booking's time window; times are 24-hour numbers such as 1430. */
  datatype TimeWindow = TimeWindow(startDate: string, startTime: int, endTime: int)

  /** One element of the body of `GET /api/bookings`. */
  datatype Booking = Booking(resourceId: Id, timeWindow: TimeWindow)

  /** The availability request: one resource over one calendar month. */
  datatype SlotsRequest = SlotsRequest(startDate: DateKey, endDate: DateKey, resourceId: Id)

  // ---------------------------------------------------------------------
  // keyOffDate
  // ---------------------------------------------------------------------

  /** `slots.map(...)`: every timestamp printed as a time label, in order. */
  function Labels(timeLabel: string -> TimeLabel, slots: seq<string>): (labels: seq<TimeLabel>)
    ensures |labels| == |slots|
    ensures forall i :: 0 <= i < |slots| ==> labels[i] == timeLabel(slots[i])
  {
    if slots == [] then [] else [timeLabel(slots[0])] + Labels(timeLabel, slots[1..])
  }

  /**
   The map keyOffDate builds from the first entries of a response: each
   entry in turn writes its date key, so later entries win.
   */
  function KeyedByDate(lib: DateLib, entries: seq<DaySlots>): DateSlots
    decreases |entries|
  {
    if entries == [] then map[]
    else
      var last := entries[|entries| - 1];
      KeyedByDate(lib, entries[..|entries| - 1])[lib.utcDateKey(last.date) := Labels(lib.utcTimeLabel, last.slots)]
  }

  /** Groups a day list by its UTC date key, printing every slot as a time label. */
  method KeyOffDate(lib: DateLib, availableSlots: seq<DaySlots>) returns (formattedSlots: DateSlots)
    ensures formattedSlots == KeyedByDate(lib, availableSlots)
  {
    formattedSlots := map[];
    var i := 0;
    while i < |availableSlots|
      invariant 0 <= i <= |availableSlots|
      invariant formattedSlots == KeyedByDate(lib, availableSlots[..i])
    {
      var entry := availableSlots[i];
      var formattedDate := lib.utcDateKey(entry.date);
      assert availableSlots[..i + 1][..i] == availableSlots[..i];
      formattedSlots := formattedSlots[formattedDate := Labels(lib.utcTimeLabel, entry.slots)];
      i := i + 1;
    }
    assert availableSlots[..i] == availableSlots;
  }

  /** The keys of keyOffDate's result are exactly the entries' formatted dates. */
  lemma {:induction false} KeyedByDateKeys(lib: DateLib, entries: seq<DaySlots>)
    ensures KeyedByDate(lib, entries).Keys == set i | 0 <= i < |entries| :: lib.utcDateKey(entries[i].date)
    decreases |entries|
  {
    if entries != [] {
      var n := |entries|;
      var init := entries[..n - 1];
      KeyedByDateKeys(lib, init);
      var all := set i | 0 <= i < n :: lib.utcDateKey(entries[i].date);
      var before := set i | 0 <= i < n - 1 :: lib.utcDateKey(init[i].date);
      forall k | k in all
        ensures k in before + {lib.utcDateKey(entries[n - 1].date)}
      {
        var i :| 0 <= i < n && k == lib.utcDateKey(entries[i].date);
        if i < n - 1 {
          assert init[i] == entries[i];
        }
      }
      forall k | k in before
        ensures k in all
      {
        var i :| 0 <= i < n - 1 && k == lib.utcDateKey(init[i].date);
        assert init[i] == entries[i];
      }
    }
  }

  /**
   The value under a date key is the slot list of the LAST entry with that
   key, printed element-wise: a later entry with the same date overwrites an
   earlier one.
   */
  lemma {:induction false} KeyedByDateLastWins(lib: DateLib, entries: seq<DaySlots>, i: nat)
    requires i < |entries|
    requires forall j :: i < j < |entries| ==> lib.utcDateKey(entries[j].date) != lib.utcDateKey(entries[i].date)
    ensures lib.utcDateKey(entries[i].date) in KeyedByDate(lib, entries)
    ensures KeyedByDate(lib, entries)[lib.utcDateKey(entries[i].date)] == Labels(lib.utcTimeLabel, entries[i].slots)
    decreases |entries|
  {
    var n := |entries|;
    if i < n - 1 {
      var init := entries[..n - 1];
      assert init[i] == entries[i];
      forall j | i < j < n - 1
        ensures lib.utcDateKey(init[j].date) != lib.utcDateKey(init[i].date)
      {
        assert init[j] == entries[j];
      }
      KeyedByDateLastWins(lib, init, i);
    }
  }

  // ---------------------------------------------------------------------
  // alreadyFetched and fetchSlotsForResource
  // ---------------------------------------------------------------------

  /** The cache layout the action creator reads: resource, then year, then month. */
  type YearCache = map<string, map<string, map<string, DateSlots>>>

  /**
   Whether `allAvailableSlots[resourceId][year][month]` is truthy. Every
   level is an object or an array, hence truthy when present; a missing
   level short-circuits to a falsy result rather than an error. The value
   type is left open so that the same lookup can be applied to any
   three-level object, whatever its leaves are.
   */
  function AlreadyFetched<V>(allAvailableSlots: map<string, map<string, map<string, V>>>, resourceId: Id, year: int, month: int): (fetched: bool)
    ensures fetched <==>
      && PropertyKey(resourceId) in allAvailableSlots
      && Decimal(year) in allAvailableSlots[PropertyKey(resourceId)]
      && Decimal(month) in allAvailableSlots[PropertyKey(resourceId)][Decimal(year)]
  {
    match Get(allAvailableSlots, PropertyKey(resourceId))
    case None => false
    case Some(resourceSlots) =>
      match Get(resourceSlots, Decimal(year))
      case None => false
      case Some(yearSlots) => Get(yearSlots, Decimal(month)).Some?
  }

  /**
   fetchSlotsForResource: derives month and year from startDate, dispatches
   IS_LOADING, then either replays the cached month (no request) or requests
   the month and dispatches the reshaped response. `response` is the body
   the server would answer with; it is not consulted on a cache hit.
   Returns the dispatched actions in order and the request made, if any.
   */
  method FetchSlotsForResource(lib: DateLib, allAvailableSlots: YearCache, startDate: Moment, resourceId: Id,
                               response: seq<ResourceAvailability>)
    returns (dispatched: seq<Action>, request: Option<SlotsRequest>)
    ensures |dispatched| == 2
    ensures dispatched[0] == IsLoading(Some(true))
    ensures dispatched[1].SlotsFetched?
    ensures dispatched[1].id == resourceId
    ensures dispatched[1].month == lib.monthOf(startDate)
    ensures dispatched[1].year == Some(lib.yearOf(startDate))
    ensures dispatched[1].loading == Some(false)
    ensures request.None? <==> AlreadyFetched(allAvailableSlots, resourceId, lib.yearOf(startDate), lib.monthOf(startDate))
    ensures request.None? ==>
      dispatched[1].availableSlots ==
        allAvailableSlots[PropertyKey(resourceId)][Decimal(lib.yearOf(startDate))][Decimal(lib.monthOf(startDate))]
    ensures request.Some? ==>
      request.value == SlotsRequest(lib.dateKeyOf(startDate), lib.monthEndKeyOf(startDate), resourceId)
    ensures request.Some? && response == [] ==> dispatched[1].availableSlots == map[]
    ensures request.Some? && response != [] ==> dispatched[1].availableSlots == KeyedByDate(lib, response[0].availableSlots)
  {
    var month := lib.monthOf(startDate);
    var year := lib.yearOf(startDate);
    dispatched := [IsLoading(Some(true))];
    if !AlreadyFetched(allAvailableSlots, resourceId, year, month) {
      request := Some(SlotsRequest(lib.dateKeyOf(startDate), lib.monthEndKeyOf(startDate), resourceId));
      var slots: DateSlots := map[];
      if |response| > 0 {
        slots := KeyOffDate(lib, response[0].availableSlots);
      }
      dispatched := dispatched + [SlotsFetched(resourceId, month, Some(year), slots, Some(false))];
    } else {
      request := None;
      var cached := allAvailableSlots[PropertyKey(resourceId)][Decimal(year)][Decimal(month)];
      dispatched := dispatched + [SlotsFetched(resourceId, month, Some(year), cached, Some(false))];
    }
  }

  // ---------------------------------------------------------------------
  // fetchStaff
  // ---------------------------------------------------------------------

  /** The name to avatar table; names outside it have no image. */
  const Images: map<string, string> := map[
    "James Hunter" := "http://i.pravatar.cc/300?img=69",
    "Selena Yamada" := "http://i.pravatar.cc/300?img=25",
    "Sarah Belmoris" := "http://i.pravatar.cc/300?img=32",
    "Phillip Fry" := "http://i.pravatar.cc/300?img=15"
  ]

  /** The staff record built from one resource's details. */
  function StaffRecord(details: ResourceDetails): (member: StaffMember)
    ensures member.id.Some? && member.id.value.Str?
    ensures PropertyKey(member.id.value) == PropertyKey(details.id)
    ensures member.name == Some(details.name)
    ensures member.imagePath.Some? <==> details.name in Images
    ensures member.imagePath.Some? ==> member.imagePath.value == Images[details.name]
    ensures member.availableSlots.None? && member.selectedDate.None? && member.slotsForDate.None?
  {
    StaffMember(Some(ToString(details.id)), Some(details.name), Get(Images, details.name), None, None, None)
  }

  /** A known name gets its avatar and its id as a string; an unknown name gets no image. */
  lemma StaffRecordExamples()
    ensures StaffRecord(ResourceDetails(Num(100004), "Phillip Fry")) ==
      StaffMember(Some(Str("100004")), Some("Phillip Fry"), Some("http://i.pravatar.cc/300?img=15"), None, None, None)
    ensures StaffRecord(ResourceDetails(Num(7), "Hubert Farnsworth")).imagePath == None
  {
    assert Decimal(100004) == "100004";
    assert "Hubert Farnsworth" !in Images;
  }

  /** Records built from distinct numeric ids have distinct ids. */
  lemma StaffRecordIdsDistinct(a: ResourceDetails, b: ResourceDetails)
    requires a.id.Num? && b.id.Num? && a.id != b.id
    ensures StaffRecord(a).id != StaffRecord(b).id
  {
    ToStringInjectiveOnNumbers(a.id.n, b.id.n);
  }

  /** One record per response, in the order given. */
  function StaffRecords(details: seq<ResourceDetails>): (members: seq<StaffMember>)
    ensures |members| == |details|
    ensures forall i :: 0 <= i < |details| ==> members[i] == StaffRecord(details[i])
  {
    if details == [] then [] else [StaffRecord(details[0])] + StaffRecords(details[1..])
  }

  /**
   The STAFF_FETCHED action fetchStaff dispatches once every per-resource
   request has answered; `detailsInArrivalOrder` holds those answers, one
   per resource id of the service, in the order they arrived, which is the
   order of the list.
   */
  function StaffFetchedAction(service: Service, detailsInArrivalOrder: seq<ResourceDetails>): (action: Action)
    requires |detailsInArrivalOrder| == |service.resources|
    ensures action.StaffFetched?
    ensures |action.staffMembers| == |service.resources|
    ensures forall i :: 0 <= i < |detailsInArrivalOrder| ==>
      && action.staffMembers[i].id == Some(ToString(detailsInArrivalOrder[i].id))
      && action.staffMembers[i].name == Some(detailsInArrivalOrder[i].name)
      && action.staffMembers[i].imagePath == Get(Images, detailsInArrivalOrder[i].name)
    ensures action.duration == service.duration
    ensures action.maxDuration == Some(service.maxDuration)
  {
    StaffFetched(StaffRecords(detailsInArrivalOrder), service.duration, Some(service.maxDuration))
  }

  // ---------------------------------------------------------------------
  // keyOffResourceId
  // ---------------------------------------------------------------------

  /** A booking's display times. */
  function BookingTimeOf(fromMilitaryTime: int -> string, booking: Booking): BookingTime
  {
    BookingTime(fromMilitaryTime(booking.timeWindow.startTime), fromMilitaryTime(booking.timeWindow.endTime))
  }

  /**
   One step of keyOffResourceId as written: append when the resource already
   has the date, otherwise replace the resource's whole entry by a map
   holding only this date.
   */
  function AddBooking(fromMilitaryTime: int -> string, byResource: BookingsByResource, booking: Booking): BookingsByResource
  {
    var key, date := PropertyKey(booking.resourceId), booking.timeWindow.startDate;
    var time := BookingTimeOf(fromMilitaryTime, booking);
    if key in byResource && date in byResource[key] then
      byResource[key := byResource[key][date := byResource[key][date] + [time]]]
    else
      byResource[key := map[date := [time]]]
  }

  /** A booking on a date its resource already has goes at the end of that list; nothing else changes. */
  lemma KnownDateAppends(fromMilitaryTime: int -> string, byResource: BookingsByResource, booking: Booking)
    requires PropertyKey(booking.resourceId) in byResource
    requires booking.timeWindow.startDate in byResource[PropertyKey(booking.resourceId)]
    ensures var r, key, date := AddBooking(fromMilitaryTime, byResource, booking), PropertyKey(booking.resourceId), booking.timeWindow.startDate;
      && r.Keys == byResource.Keys
      && r[key].Keys == byResource[key].Keys
      && r[key][date] == byResource[key][date] + [BookingTimeOf(fromMilitaryTime, booking)]
      && (forall d :: d in byResource[key] && d != date ==> r[key][d] == byResource[key][d])
      && (forall k :: k in byResource && k != key ==> r[k] == byResource[k])
  {
  }

  /**
   A booking on a date its resource does not have yet leaves that resource
   with this single date: its earlier dates are dropped. Other resources
   are untouched.
   */
  lemma NewDateReplacesEntry(fromMilitaryTime: int -> string, byResource: BookingsByResource, booking: Booking)
    requires !(PropertyKey(booking.resourceId) in byResource
               && booking.timeWindow.startDate in byResource[PropertyKey(booking.resourceId)])
    ensures var r, key, date := AddBooking(fromMilitaryTime, byResource, booking), PropertyKey(booking.resourceId), booking.timeWindow.startDate;
      && r.Keys == byResource.Keys + {key}
      && r[key] == map[date := [BookingTimeOf(fromMilitaryTime, booking)]]
      && (forall d :: key in byResource && d in byResource[key] ==> d !in r[key])
      && (forall k :: k in byResource && k != key ==> r[k] == byResource[k])
  {
  }

  /** keyOffResourceId's result on the first bookings of a response. */
  function BookingsAsWritten(fromMilitaryTime: int -> string, bookings: seq<Booking>): BookingsByResource
    decreases |bookings|
  {
    if bookings == [] then map[]
    else AddBooking(fromMilitaryTime, BookingsAsWritten(fromMilitaryTime, bookings[..|bookings| - 1]), bookings[|bookings| - 1])
  }

  /** Groups bookings by resource key and start date, converting military times. */
  method KeyOffResourceId(fromMilitaryTime: int -> string, bookings: seq<Booking>)
    returns (bookingsByResource: BookingsByResource)
    ensures bookingsByResource == BookingsAsWritten(fromMilitaryTime, bookings)
  {
    bookingsByResource := map[];
    var i := 0;
    while i < |bookings|
      invariant 0 <= i <= |bookings|
      invariant bookingsByResource == BookingsAsWritten(fromMilitaryTime, bookings[..i])
    {
      var booking := bookings[i];
      var key := PropertyKey(booking.resourceId);
      var window := booking.timeWindow;
      var start := fromMilitaryTime(window.startTime);
      var end := fromMilitaryTime(window.endTime);
      assert bookings[..i + 1][..i] == bookings[..i];
      if key in bookingsByResource && window.startDate in bookingsByResource[key] {
        var dates := bookingsByResource[key];
        bookingsByResource := bookingsByResource[key := dates[window.startDate := dates[window.startDate] + [BookingTime(start, end)]]];
      } else {
        bookingsByResource := bookingsByResource[key := map[window.startDate := [BookingTime(start, end)]]];
      }
      i := i + 1;
    }
    assert bookings[..i] == bookings;
  }

  /** A set with one element x is {x}. */
  lemma SingletonIs<T>(s: set<T>, x: T)
    requires |s| == 1 && x in s
    ensures s == {x}
  {
    assert |s - {x}| == 0;
  }

  /** Every resource key in the map has exactly one date. */
  ghost predicate OneDateEach(byResource: BookingsByResource)
  {
    forall k :: k in byResource ==> |byResource[k].Keys| == 1
  }

  /** As written, every resource ends up with exactly one date. */
  lemma {:induction false} OneDatePerResource(fromMilitaryTime: int -> string, bookings: seq<Booking>)
    ensures OneDateEach(BookingsAsWritten(fromMilitaryTime, bookings))
    decreases |bookings|
  {
    if bookings != [] {
      var init := bookings[..|bookings| - 1];
      OneDatePerResource(fromMilitaryTime, init);
      var before, last := BookingsAsWritten(fromMilitaryTime, init), bookings[|bookings| - 1];
      var key, date := PropertyKey(last.resourceId), last.timeWindow.startDate;
      var r := AddBooking(fromMilitaryTime, before, last);
      if key in before && date in before[key] {
        assert r[key].Keys == before[key].Keys;
      } else {
        assert r[key].Keys == {date};
      }
      forall k | k in r
        ensures |r[k].Keys| == 1
      {
        if k != key {
          assert r[k] == before[k];
        }
      }
    }
  }

  /**
   As written, the one date a resource keeps is the start date of its last
   booking.
   */
  lemma {:induction false} LastBookingDecidesDate(fromMilitaryTime: int -> string, bookings: seq<Booking>, i: nat)
    requires i < |bookings|
    requires forall j :: i < j < |bookings| ==> PropertyKey(bookings[j].resourceId) != PropertyKey(bookings[i].resourceId)
    ensures var r, key := BookingsAsWritten(fromMilitaryTime, bookings), PropertyKey(bookings[i].resourceId);
      key in r && r[key].Keys == {bookings[i].timeWindow.startDate}
    decreases |bookings|
  {
    var n := |bookings|;
    var init := bookings[..n - 1];
    var before := BookingsAsWritten(fromMilitaryTime, init);
    var key, date := PropertyKey(bookings[i].resourceId), bookings[i].timeWindow.startDate;
    if i == n - 1 {
      if key in before && date in before[key] {
        OneDatePerResource(fromMilitaryTime, init);
        assert |before[key].Keys| == 1;
        SingletonIs(before[key].Keys, date);
      }
    } else {
      assert init[i] == bookings[i];
      forall j | i < j < n - 1
        ensures PropertyKey(init[j].resourceId) != PropertyKey(init[i].resourceId)
      {
        assert init[j] == bookings[j];
      }
      LastBookingDecidesDate(fromMilitaryTime, init, i);
    }
  }

  /**
   Two bookings for one resource on two dates: as written, the first is
   lost; grouped as intended, both dates are kept.
   */
  lemma AsWrittenDropsEarlierDate(fromMilitaryTime: int -> string)
    ensures var first := Booking(Num(100004), TimeWindow("2017-04-01", 900, 1000));
      var second := Booking(Num(100004), TimeWindow("2017-04-02", 1400, 1500));
      && BookingsAsWritten(fromMilitaryTime, [first, second]) ==
           map["100004" := map["2017-04-02" := [BookingTime(fromMilitaryTime(1400), fromMilitaryTime(1500))]]]
      && GroupBookings(fromMilitaryTime, [first, second]) ==
           map["100004" := map["2017-04-01" := [BookingTime(fromMilitaryTime(900), fromMilitaryTime(1000))],
                               "2017-04-02" := [BookingTime(fromMilitaryTime(1400), fromMilitaryTime(1500))]]]
  {
    var first := Booking(Num(100004), TimeWindow("2017-04-01", 900, 1000));
    var second := Booking(Num(100004), TimeWindow("2017-04-02", 1400, 1500));
    var start, end := BookingTime(fromMilitaryTime(900), fromMilitaryTime(1000)),
                      BookingTime(fromMilitaryTime(1400), fromMilitaryTime(1500));
    assert PropertyKey(first.resourceId) == PropertyKey(second.resourceId) == "100004" by {
      assert Decimal(100004) == "100004";
    }
    assert [first, second][..1] == [first];
    assert [first][..0] == [];
    assert [] + [start] == [start] && [] + [end] == [end];
    assert GroupBookings(fromMilitaryTime, [first, second])
        == AddBookingGrouped(fromMilitaryTime, GroupBookings(fromMilitaryTime, [first]), second);
    assert BookingsAsWritten(fromMilitaryTime, [first]) == map["100004" := map["2017-04-01" := [start]]];
    assert GroupBookings(fromMilitaryTime, [first]) == map["100004" := map["2017-04-01" := [start]]];
  }

  // Grouping as intended: a new date is added beside the resource's other dates.

  /** One step of the intended grouping. */
  function AddBookingGrouped(fromMilitaryTime: int -> string, byResource: BookingsByResource, booking: Booking): BookingsByResource
  {
    var key, date := PropertyKey(booking.resourceId), booking.timeWindow.startDate;
    var dates := if key in byResource then byResource[key] else map[];
    var times := if date in dates then dates[date] else [];
    byResource[key := dates[date := times + [BookingTimeOf(fromMilitaryTime, booking)]]]
  }

  /** The intended grouping of a booking list. */
  function GroupBookings(fromMilitaryTime: int -> string, bookings: seq<Booking>): BookingsByResource
    decreases |bookings|
  {
    if bookings == [] then map[]
    else AddBookingGrouped(fromMilitaryTime, GroupBookings(fromMilitaryTime, bookings[..|bookings| - 1]), bookings[|bookings| - 1])
  }

  /** The display times of the bookings for one resource key on one date, in list order. */
  function TimesOn(fromMilitaryTime: int -> string, bookings: seq<Booking>, key: string, date: string): seq<BookingTime>
    decreases |bookings|
  {
    if bookings == [] then []
    else
      var last := bookings[|bookings| - 1];
      TimesOn(fromMilitaryTime, bookings[..|bookings| - 1], key, date)
        + (if PropertyKey(last.resourceId) == key && last.timeWindow.startDate == date
           then [BookingTimeOf(fromMilitaryTime, last)] else [])
  }

  /**
   The intended grouping keeps every booking: a resource key is present
   exactly when some booking names it, a date under it exactly when some
   booking for it starts then, and the list there holds those bookings'
   times in list order.
   */
  lemma {:induction false} GroupBookingsCollects(fromMilitaryTime: int -> string, bookings: seq<Booking>, key: string, date: string)
    ensures var r := GroupBookings(fromMilitaryTime, bookings);
      && (key in r <==> exists i :: 0 <= i < |bookings| && PropertyKey(bookings[i].resourceId) == key)
      && (key in r && date in r[key] <==> TimesOn(fromMilitaryTime, bookings, key, date) != [])
      && (key in r && date in r[key] ==> r[key][date] == TimesOn(fromMilitaryTime, bookings, key, date))
    decreases |bookings|
  {
    if bookings != [] {
      var n := |bookings|;
      var init := bookings[..n - 1];
      GroupBookingsCollects(fromMilitaryTime, init, key, date);
      var last := bookings[n - 1];
      if PropertyKey(last.resourceId) != key {
        if exists i :: 0 <= i < n && PropertyKey(bookings[i].resourceId) == key {
          var i :| 0 <= i < n && PropertyKey(bookings[i].resourceId) == key;
          assert init[i] == bookings[i];
        }
        if exists i :: 0 <= i < n - 1 && PropertyKey(init[i].resourceId) == key {
          var i :| 0 <= i < n - 1 && PropertyKey(init[i].resourceId) == key;
          assert init[i] == bookings[i];
        }
      }
    }
  }
}

/**
 The staff reducer: a total function from the current `staff` state and an
 action to the next state. Its transitions for STAFF_FETCHED, DATE_SELECTED
 and SLOTS_FETCHED are the ones the reducer tests state, expected state by
 expected state; every expected state is the previous one with a few
 properties replaced.
 */
module StaffReducer {
  import opened JsKeys
  import opened StaffTypes

  /**
   lodash `find` with `staff.id === id`: the index of the first member whose
   id is strictly equal to the given one.
   */
  function FindIndex(members: seq<StaffMember>, id: Id): (found: Option<nat>)
    ensures found.Some? ==> found.value < |members| && members[found.value].id == Some(id)
    ensures found.Some? ==> forall j :: 0 <= j < found.value ==> members[j].id != Some(id)
    ensures found.None? ==> forall j :: 0 <= j < |members| ==> members[j].id != Some(id)
  {
    if members == [] then None
    else if members[0].id == Some(id) then Some(0)
    else
      match FindIndex(members[1..], id)
      case None => None
      case Some(k) => Some(k + 1)
  }

  /** `{ ...find(members, ...) }`: the member found, or `{}` when there is none. */
  function SpreadFound(members: seq<StaffMember>, id: Id): StaffMember
  {
    match FindIndex(members, id)
    case None => NoProperties
    case Some(i) => members[i]
  }

  /** The months cached for a resource key; none when the key is absent. */
  function MonthsOf(cache: SlotCache, key: string): map<string, DateSlots>
  {
    if key in cache then cache[key] else map[]
  }

  /** The member's slots for a date key, or the empty list when there are none. */
  function SlotsOn(member: StaffMember, key: DateKey): seq<TimeLabel>
  {
    match member.availableSlots
    case None => []
    case Some(slots) => if key in slots then slots[key] else []
  }

  /**
   The next state. Each kind of action touches only its own properties, and
   no action ever removes a cached (resource, month) entry.
   */
  function Reduce(dateKeyOf: Moment -> DateKey, state: StaffState, action: Action): (next: StaffState)
    ensures next.staffMembers != state.staffMembers ==> action.StaffFetched?
    ensures next.duration != state.duration || next.maxDuration != state.maxDuration ==> action.StaffFetched?
    ensures next.allAvailableSlots != state.allAvailableSlots ==> action.SlotsFetched?
    ensures next.selectedStaffMember != state.selectedStaffMember ==> action.DateSelected? || action.SlotsFetched?
    ensures next.bookingsByResource != state.bookingsByResource ==> action.BookingsFetched?
    ensures next.loading != state.loading ==> action.IsLoading? || action.SlotsFetched?
    ensures forall key, month :: key in state.allAvailableSlots && month in state.allAvailableSlots[key] ==>
      key in next.allAvailableSlots && month in next.allAvailableSlots[key]
  {
    match action
    case StaffFetched(members, duration, maxDuration) =>
      state.(staffMembers := members, duration := duration,
             maxDuration := if maxDuration.Some? then maxDuration.value else state.maxDuration)
    case DateSelected(date) =>
      var member := state.selectedStaffMember;
      state.(selectedStaffMember := member.(selectedDate := Some(date), slotsForDate := Some(SlotsOn(member, dateKeyOf(date)))))
    case SlotsFetched(id, month, _, slots, loading) =>
      var key := PropertyKey(id);
      state.(allAvailableSlots := state.allAvailableSlots[key := MonthsOf(state.allAvailableSlots, key)[Decimal(month) := slots]],
             selectedStaffMember := SpreadFound(state.staffMembers, id).(availableSlots := Some(slots)),
             loading := if loading.Some? then loading.value else state.loading)
    case IsLoading(loading) =>
      state.(loading := if loading.Some? then loading.value else state.loading)
    case BookingsFetched(bookingsByResource) =>
      state.(bookingsByResource := bookingsByResource)
  }

  /** STAFF_FETCHED replaces staffMembers and duration (and maxDuration when sent); nothing else changes. */
  lemma StaffFetchedReplacesFields(dateKeyOf: Moment -> DateKey, state: StaffState, members: seq<StaffMember>,
                                   duration: int, maxDuration: Option<int>)
    ensures maxDuration.None? ==>
      Reduce(dateKeyOf, state, StaffFetched(members, duration, maxDuration))
        == state.(staffMembers := members, duration := duration)
    ensures maxDuration.Some? ==>
      Reduce(dateKeyOf, state, StaffFetched(members, duration, maxDuration))
        == state.(staffMembers := members, duration := duration, maxDuration := maxDuration.value)
  {
  }

  /**
   DATE_SELECTED for a date the selected member has slots on: selectedDate
   is the date, slotsForDate exactly the stored list; nothing else changes.
   */
  lemma DateSelectedKnownDate(dateKeyOf: Moment -> DateKey, state: StaffState, date: Moment)
    requires state.selectedStaffMember.availableSlots.Some?
    requires dateKeyOf(date) in state.selectedStaffMember.availableSlots.value
    ensures Reduce(dateKeyOf, state, DateSelected(date)) ==
      state.(selectedStaffMember := state.selectedStaffMember.(
        selectedDate := Some(date),
        slotsForDate := Some(state.selectedStaffMember.availableSlots.value[dateKeyOf(date)])))
  {
  }

  /**
   DATE_SELECTED for a date with no stored slots: slotsForDate is the empty
   list, never absent, and selectedDate is still set; nothing else changes.
   */
  lemma DateSelectedUnknownDate(dateKeyOf: Moment -> DateKey, state: StaffState, date: Moment)
    requires !(state.selectedStaffMember.availableSlots.Some?
               && dateKeyOf(date) in state.selectedStaffMember.availableSlots.value)
    ensures Reduce(dateKeyOf, state, DateSelected(date)) ==
      state.(selectedStaffMember := state.selectedStaffMember.(selectedDate := Some(date), slotsForDate := Some([])))
  {
  }

  /**
   SLOTS_FETCHED stores the month under the resource and month keys, keeps the
   resource's other months and leaves every other resource's entry as it was.
   */
  lemma SlotsFetchedMergesMonth(dateKeyOf: Moment -> DateKey, state: StaffState, id: Id, month: int,
                                year: Option<int>, slots: DateSlots, loading: Option<bool>)
    ensures var before, after := state.allAvailableSlots, Reduce(dateKeyOf, state, SlotsFetched(id, month, year, slots, loading)).allAvailableSlots;
      var key, monthKey := PropertyKey(id), Decimal(month);
      && after.Keys == before.Keys + {key}
      && after[key].Keys == (if key in before then before[key].Keys else {}) + {monthKey}
      && after[key][monthKey] == slots
      && (forall m :: key in before && m in before[key] && m != monthKey ==> after[key][m] == before[key][m])
      && (forall k :: k in before && k != key ==> after[k] == before[k])
  {
  }

  /** SLOTS_FETCHED on an empty cache leaves exactly `{id: {month: slots}}`: no year level. */
  lemma SlotsFetchedOnEmptyCache(dateKeyOf: Moment -> DateKey, state: StaffState, id: Id, month: int,
                                 year: Option<int>, slots: DateSlots, loading: Option<bool>)
    requires state.allAvailableSlots == map[]
    ensures Reduce(dateKeyOf, state, SlotsFetched(id, month, year, slots, loading)).allAvailableSlots
      == map[PropertyKey(id) := map[Decimal(month) := slots]]
  {
  }

  /**
   After SLOTS_FETCHED the selected member is the first staff member whose id
   is strictly equal to the action's, with availableSlots replaced by the
   month just fetched (not the merged history).
   */
  lemma SlotsFetchedSelectsMember(dateKeyOf: Moment -> DateKey, state: StaffState, id: Id, month: int,
                                  year: Option<int>, slots: DateSlots, loading: Option<bool>, i: nat)
    requires i < |state.staffMembers| && state.staffMembers[i].id == Some(id)
    requires forall j :: 0 <= j < i ==> state.staffMembers[j].id != Some(id)
    ensures Reduce(dateKeyOf, state, SlotsFetched(id, month, year, slots, loading)).selectedStaffMember
      == state.staffMembers[i].(availableSlots := Some(slots))
  {
  }

  /**
   When no staff member has the action's id, the selected member is the
   spread of `undefined` with availableSlots added: only availableSlots is set.
   */
  lemma SlotsFetchedWithoutMember(dateKeyOf: Moment -> DateKey, state: StaffState, id: Id, month: int,
                                  year: Option<int>, slots: DateSlots, loading: Option<bool>)
    requires forall j :: 0 <= j < |state.staffMembers| ==> state.staffMembers[j].id != Some(id)
    ensures Reduce(dateKeyOf, state, SlotsFetched(id, month, year, slots, loading)).selectedStaffMember
      == NoProperties.(availableSlots := Some(slots))
  {
  }

  /**
   SLOTS_FETCHED without a loading flag changes only allAvailableSlots and
   selectedStaffMember; staffMembers and every other property keep their values.
   */
  lemma SlotsFetchedKeepsOtherFields(dateKeyOf: Moment -> DateKey, state: StaffState, id: Id, month: int,
                                     year: Option<int>, slots: DateSlots)
    ensures var next := Reduce(dateKeyOf, state, SlotsFetched(id, month, year, slots, None));
      next == state.(allAvailableSlots := next.allAvailableSlots, selectedStaffMember := next.selectedStaffMember)
  {
  }

  // ---------------------------------------------------------------------
  // The reducer tests' fixtures and expected states
  // ---------------------------------------------------------------------

  function Member(id: int, name: string, image: string): StaffMember
  {
    StaffMember(Some(Num(id)), Some(name), Some(image), None, None, None)
  }

  /** The four staff members of the SLOTS_FETCHED tests. */
  function TestStaff(): seq<StaffMember>
  {
    [ Member(100001, "James Hunter", "http://i.pravatar.cc/300?img=69"),
      Member(100002, "Selena Yamada", "http://i.pravatar.cc/300?img=25"),
      Member(100003, "Sarah Belmoris", "http://i.pravatar.cc/300?img=32"),
      Member(100004, "Phillip Fry", "http://i.pravatar.cc/300?img=15") ]
  }

  /** In the test fixtures, Phillip Fry (100004) is found at index 3. */
  lemma FindTestMember()
    ensures FindIndex(TestStaff(), Num(100004)) == Some(3)
  {
  }

  /** The first SLOTS_FETCHED test: a month fetched into an empty cache. */
  lemma SlotsFetchedFirstMonthTest(dateKeyOf: Moment -> DateKey, initial: StaffState)
    requires initial.allAvailableSlots == map[]
    ensures var march := map["2017-03-30" := ["6:00 PM", "6:30 PM"]];
      var next := Reduce(dateKeyOf, initial.(staffMembers := TestStaff()), SlotsFetched(Num(100004), 2, None, march, None));
      next == initial.(staffMembers := TestStaff(),
                       allAvailableSlots := map["100004" := map["2" := march]],
                       selectedStaffMember := TestStaff()[3].(availableSlots := Some(march)))
  {
    assert Decimal(100004) == "100004" && Decimal(2) == "2";
    FindTestMember();
  }

  /** The second SLOTS_FETCHED test: a further month merged into a cache of two resources. */
  lemma SlotsFetchedNextMonthTest(dateKeyOf: Moment -> DateKey, initial: StaffState)
    ensures var march := map["2017-03-30" := ["6:00 PM", "6:30 PM"]];
      var otherMarch := map["2017-03-31" := ["12:00 PM", "12:30 PM"]];
      var april := map["2017-04-30" := ["6:00 PM", "6:30 PM"]];
      var cache := map["100004" := map["2" := march], "100003" := map["2" := otherMarch]];
      var next := Reduce(dateKeyOf, initial.(allAvailableSlots := cache, staffMembers := TestStaff()),
                         SlotsFetched(Num(100004), 3, None, april, None));
      next == initial.(staffMembers := TestStaff(),
                       selectedStaffMember := TestStaff()[3].(availableSlots := Some(april)),
                       allAvailableSlots := map["100004" := map["2" := march, "3" := april], "100003" := map["2" := otherMarch]])
  {
    assert Decimal(100004) == "100004" && Decimal(3) == "3";
    FindTestMember();
  }

  /** The two DATE_SELECTED tests: a date with slots, and one without. */
  lemma DateSelectedTestCases(dateKeyOf: Moment -> DateKey, initial: StaffState, date: Moment, oldDate: Moment)
    requires dateKeyOf(date) == "2017-04-01" && dateKeyOf(oldDate) == "1970-10-15"
    ensures var member := Member(100004, "Phillip Fry", "http://i.pravatar.cc/300?img=15")
                            .(availableSlots := Some(map["2017-04-01" := ["7:00", "8:00"]]));
      && Reduce(dateKeyOf, initial.(selectedStaffMember := member), DateSelected(date))
           == initial.(selectedStaffMember := member.(selectedDate := Some(date), slotsForDate := Some(["7:00", "8:00"])))
      && Reduce(dateKeyOf, initial.(selectedStaffMember := member), DateSelected(oldDate))
           == initial.(selectedStaffMember := member.(selectedDate := Some(oldDate), slotsForDate := Some([])))
  {
  }
}

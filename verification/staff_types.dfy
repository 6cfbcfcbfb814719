/**
 The shapes the staff store works with: the staff record, the slot and
 booking maps, the actions dispatched to the reducer and the store's state.
 Dates and times are opaque keys; the date library's formatting is a
 parameter (DateLib), never interpreted.
 */
module StaffTypes {
  import opened JsKeys

  /** A calendar date printed as "YYYY-MM-DD". */
  type DateKey = string
  /** A time of day printed as "h:mm A". */
  type TimeLabel = string

  /** The bookable times of one resource, keyed by date. */
  type DateSlots = map<DateKey, seq<TimeLabel>>

  /**
   The slot cache as the reducer keeps it: resource key, then month key
   ("0" to "11"), then the month's DateSlots. There is no year level.
   */
  type SlotCache = map<string, map<string, DateSlots>>

  /** An instant held by the date library; its internals are not modelled. */
  datatype Moment = Moment(epochMillis: int)

  /**
   The date library's operations, as uninterpreted functions:
   monthOf and yearOf are `month()` (zero-based) and `year()`,
   dateKeyOf is `format('YYYY-MM-DD')`, monthEndKeyOf is
   `endOf('month').format('YYYY-MM-DD')`, and utcDateKey and utcTimeLabel
   parse an ISO timestamp in UTC and print it as "YYYY-MM-DD" and "h:mm A".
   */
  datatype DateLib = DateLib(
    monthOf: Moment -> int,
    yearOf: Moment -> int,
    dateKeyOf: Moment -> DateKey,
    monthEndKeyOf: Moment -> DateKey,
    utcDateKey: string -> DateKey,
    utcTimeLabel: string -> TimeLabel)

  /**
   A staff member record. Every property may be absent: fetched records
   carry id, name and imagePath; the reducer adds availableSlots,
   selectedDate and slotsForDate.
   */
  datatype StaffMember = StaffMember(
    id: Option<Id>,
    name: Option<string>,
    imagePath: Option<string>,
    availableSlots: Option<DateSlots>,
    selectedDate: Option<Moment>,
    slotsForDate: Option<seq<TimeLabel>>)

  /** The object `{}`, which is what spreading `undefined` yields. */
  const NoProperties := StaffMember(None, None, None, None, None, None)

  /** One booking as displayed: start and end converted from military time. */
  datatype BookingTime = BookingTime(startTime: string, endTime: string)

  /** Bookings keyed by resource key, then by start date. */
  type BookingsByResource = map<string, map<string, seq<BookingTime>>>

  /**
   The actions the staff reducer receives. A property that some senders
   omit is an Option: the reducer tests dispatch STAFF_FETCHED without
   maxDuration and SLOTS_FETCHED without year or loading.
   */
  datatype Action =
    | IsLoading(loading: Option<bool>)
    | SlotsFetched(id: Id, month: int, year: Option<int>, availableSlots: DateSlots, loading: Option<bool>)
    | StaffFetched(staffMembers: seq<StaffMember>, duration: int, maxDuration: Option<int>)
    | DateSelected(date: Moment)
    | BookingsFetched(bookingsByResource: BookingsByResource)

  /** The `staff` slice of the store. */
  datatype StaffState = StaffState(
    staffMembers: seq<StaffMember>,
    duration: int,
    maxDuration: int,
    allAvailableSlots: SlotCache,
    selectedStaffMember: StaffMember,
    bookingsByResource: BookingsByResource,
    loading: bool)
}

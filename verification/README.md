# Staff store of the booking widget, in Dafny

This project models the client-side staff store of a staff-booking widget:

- the action creators in `src/js/actions/staff.js`: the slot-cache check
  `alreadyFetched`, the cache-hit / cache-miss branch of
  `fetchSlotsForResource` as the sequence of actions it dispatches, the
  reshaping helpers `keyOffDate` and `keyOffResourceId`, and the staff
  records `fetchStaff` builds;
- the staff reducer's transitions for `STAFF_FETCHED`, `DATE_SELECTED` and
  `SLOTS_FETCHED`, as the expected states of
  `src/js/reducers/__tests__/staff.spec.js` define them. The reducer's own
  source is not part of this model, so those tests are its specification.

Modules:

- `JsKeys` (`js_keys.dfy`): optional properties (`Option`), ids that are
  numbers or strings (`Id`), and the string property keys of JavaScript
  objects. Numbers become keys through `Decimal`, proved injective.
- `StaffTypes` (`staff_types.dfy`): staff records, slot and booking maps,
  the actions, the `staff` state, and `DateLib`, the date library's
  operations passed in as uninterpreted functions.
- `StaffActions` (`staff_actions.dfy`): the action creators. `KeyOffDate`
  and `KeyOffResourceId` are loops that update a map, each proved equal to a
  specification function. `FetchSlotsForResource` returns the actions it
  dispatches and the request it makes, if any.
- `StaffReducer` (`staff_reducer.dfy`): `Reduce`, a total function of state
  and action, with one lemma per tested transition.
- `CacheLayout` (`cache_layout.dfy`): how the three-level cache check meets
  the two-level cache the reducer builds, and a store keyed by resource,
  year and month that the check does find.

Every map level is keyed by strings, as JavaScript objects are. Months and
years are looked up under their decimal form. Ids keep their JavaScript
type: strict equality (`===`) separates `Num(100004)` from
`Str("100004")`, but property lookup does not. The model assumes that the
reducer picks the selected member with `===`, as the test's own `find` at
`staff.spec.js:173` does; every test uses numeric ids on both sides, so the
tests do not decide this.

The two cache layouts are modelled as written and are not reconciled:

- the reducer stores `allAvailableSlots[resource][month]`, with no year
  level (`staff.spec.js:174-185`, `213`);
- `alreadyFetched` reads `allAvailableSlots[resource][year][month]`
  (`staff.js:31-32`).

`AlreadyFetched` is generic in its leaf type, so it applies to both.
`FetchSlotsForResource` takes the three-level layout it was written for.
`CacheLayout` shows that on the layout the reducer builds, the check never
succeeds for a year outside 0 to 11.

Choices the tests leave open:

- The tests dispatch STAFF_FETCHED without `maxDuration` and SLOTS_FETCHED
  without `loading`, and their expected states keep both at the initial
  values. The action creators do send both (`staff.js:57`, `staff.js:104`).
  The model stores each property when the action carries it and keeps the
  old value otherwise.
- IS_LOADING and BOOKINGS_FETCHED are not tested. The model sets `loading`
  and replaces `bookingsByResource`.
- Action types other than these five are not modelled.
- DATE_SELECTED when the selected member has no `availableSlots` at all is
  not tested. The model treats it like a missing date key: the empty list.
- SLOTS_FETCHED for an id no staff member has is not tested. The model
  follows the shape of the test's expected state,
  `{ ...find(staffMembers, ...), availableSlots }`: spreading the missing
  member adds nothing, so the selected member holds only `availableSlots`.

## Model

| member | source | states |
|---|---|---|
| `JsKeys.ToString` | src/js/actions/staff.js:96 | `id.toString()` is a string id with the same property key; a string id is kept as it is |
| `JsKeys.ToStringInjectiveOnNumbers` | src/js/actions/staff.js:96 | distinct numeric ids give distinct string ids |
| `JsKeys.DecimalInjective` | src/js/actions/staff.js:31-32 | distinct numbers never print as the same property key, so year and month keys cannot collide |
| `StaffActions.Labels` | src/js/actions/staff.js:22-24 | the mapped slot list has the input's length, and element i is the time label of slot i, so order is kept |
| `StaffActions.KeyOffDate` | src/js/actions/staff.js:18-28 | the loop over the day list yields exactly the map `KeyedByDate` describes |
| `StaffActions.KeyedByDateKeys` | src/js/actions/staff.js:18-28 | the result's keys are exactly the formatted dates of the input entries |
| `StaffActions.KeyedByDateLastWins` | src/js/actions/staff.js:20-26 | under each date key is the mapped slot list of the last entry with that key; a later entry with the same date overwrites an earlier one |
| `StaffActions.AlreadyFetched` | src/js/actions/staff.js:30-33 | truthy exactly when the resource key, then the year key under it, then the month key under that are present; a missing level at any depth gives false, never an error |
| `StaffActions.FetchSlotsForResource` | src/js/actions/staff.js:35-76 | dispatches IS_LOADING with loading true, then exactly one SLOTS_FETCHED with the same id, month and year and loading false. A request is made exactly on a cache miss; a hit replays `allAvailableSlots[id][year][month]`; a miss carries the reshaped first response element, or an empty map for an empty response |
| `StaffActions.StaffRecord` | src/js/actions/staff.js:96 | the record's id is the string form of the fetched id and its name is the fetched name. Its imagePath comes from the name-to-avatar table at lines 11-16 and is absent exactly when the name is not in the table |
| `StaffActions.StaffRecordExamples` | src/js/actions/staff.js:11-16 | Phillip Fry with id 100004 gets id "100004" and avatar img=15; an unlisted name gets no image |
| `StaffActions.StaffRecordIdsDistinct` | src/js/actions/staff.js:96 | records built from distinct numeric ids have distinct ids |
| `StaffActions.StaffRecords` | src/js/actions/staff.js:93-97 | one staff record per resource response, in the order the responses are given |
| `StaffActions.StaffFetchedAction` | src/js/actions/staff.js:86-106 | given one response per resource id of the service, STAFF_FETCHED carries one record per resource id, with the id as a string, the name, and the table image, plus the service's duration and maxDuration |
| `StaffActions.KnownDateAppends` | src/js/actions/staff.js:118-122 | a booking on a date its resource already has is appended at the end of that list; every other date and resource is unchanged |
| `StaffActions.NewDateReplacesEntry` | src/js/actions/staff.js:123-129 | a booking on a new date makes the resource's entry a map with that single date; the earlier dates are dropped and other resources are untouched |
| `StaffActions.KeyOffResourceId` | src/js/actions/staff.js:111-133 | the loop over the bookings yields exactly the map `BookingsAsWritten` describes, step by step |
| `StaffActions.OneDatePerResource` | src/js/actions/staff.js:111-133 | as written, every resource in the result has exactly one date |
| `StaffActions.LastBookingDecidesDate` | src/js/actions/staff.js:111-133 | as written, the one date a resource keeps is the start date of its last booking |
| `StaffActions.AsWrittenDropsEarlierDate` | src/js/actions/staff.js:123-129 | two bookings for one resource on two dates: as written only the second survives; the intended grouping keeps both |
| `StaffActions.GroupBookingsCollects` | src/js/actions/staff.js:111-133 | intended grouping: a resource key is present exactly when some booking names it, and a date under it exactly when some booking for it starts then. The list there is those bookings' times in order |
| `StaffReducer.FindIndex` | src/js/reducers/__tests__/staff.spec.js:173 | `find` by strict id equality, as the test's `find` compares, returns the first member with that id, or reports that none has it |
| `StaffReducer.Reduce` | src/js/reducers/__tests__/staff.spec.js:62-254 | each property changes only under the action that owns it, and no action removes a cached (resource, month) entry |
| `StaffReducer.StaffFetchedReplacesFields` | src/js/reducers/__tests__/staff.spec.js:50-68 | STAFF_FETCHED gives the prior state with staffMembers and duration replaced, and maxDuration replaced only when the action carries one; all else unchanged |
| `StaffReducer.DateSelectedKnownDate` | src/js/reducers/__tests__/staff.spec.js:72-105 | a date whose key is stored sets selectedDate to the date and slotsForDate to exactly the stored list; the rest of the state is unchanged |
| `StaffReducer.DateSelectedUnknownDate` | src/js/reducers/__tests__/staff.spec.js:109-140 | a date whose key is absent sets slotsForDate to the empty list, not undefined, and still sets selectedDate |
| `StaffReducer.SlotsFetchedMergesMonth` | src/js/reducers/__tests__/staff.spec.js:222-254 | the month is stored under resource key then month key; the resource's other months and every other resource's entry are unchanged |
| `StaffReducer.SlotsFetchedOnEmptyCache` | src/js/reducers/__tests__/staff.spec.js:195-219 | on an empty cache the result is `{id: {month: availableSlots}}`, with no year level |
| `StaffReducer.SlotsFetchedSelectsMember` | src/js/reducers/__tests__/staff.spec.js:214-217 | selectedStaffMember is the first staff member whose id equals the action's id, with availableSlots replaced by the fetched month only |
| `StaffReducer.SlotsFetchedWithoutMember` | src/js/reducers/__tests__/staff.spec.js:173 | untested case, modelled on the test's formula: when no member has the id, spreading the missing member adds nothing and selectedStaffMember holds only availableSlots |
| `StaffReducer.SlotsFetchedKeepsOtherFields` | src/js/reducers/__tests__/staff.spec.js:209-218 | SLOTS_FETCHED without a loading flag changes only allAvailableSlots and selectedStaffMember |
| `StaffReducer.SlotsFetchedFirstMonthTest` | src/js/reducers/__tests__/staff.spec.js:195-219 | the first SLOTS_FETCHED test: with its fixtures, the reducer's result is exactly the expected state |
| `StaffReducer.SlotsFetchedNextMonthTest` | src/js/reducers/__tests__/staff.spec.js:222-254 | the second SLOTS_FETCHED test: with its fixtures, the reducer's result is exactly the expected merged state |
| `StaffReducer.DateSelectedTestCases` | src/js/reducers/__tests__/staff.spec.js:72-142 | both DATE_SELECTED tests: with their fixtures, the reducer's result is exactly the expected state |
| `CacheLayout.YearIsNoMonthKey` | src/js/actions/staff.js:31-32 | a year outside 0 to 11 never has the same key as a month index |
| `CacheLayout.TwoLevelCacheNeverHits` | src/js/actions/staff.js:30-33 | on a cache keyed by month indices below each resource, the three-level check is false for such a year |
| `CacheLayout.ReduceAllKeepsMonthKeyed` | src/js/reducers/__tests__/staff.spec.js:213 | reducing actions whose months are month indices keeps every resource's entry keyed by month indices only |
| `CacheLayout.StoredSlotsNeverHit` | src/js/actions/staff.js:41 | from an empty cache, after any actions, the check finds no cached month for a real year, so the cached branch is never taken |
| `CacheLayout.StoreByYear` | src/js/actions/staff.js:49-58 | corrected store: SLOTS_FETCHED puts the slots at resource, then the year the action carries, then month; every other (resource, year, month) entry is unchanged; an action without a year changes nothing |
| `CacheLayout.StoredMonthStaysStored` | src/js/reducers/__tests__/staff.spec.js:238-254 | in the corrected store no later action removes a stored (resource, year, month) entry |
| `CacheLayout.FetchedMonthIsFound` | src/js/actions/staff.js:30-33 | after SLOTS_FETCHED for a resource, year and month, the unchanged three-level check finds that month whatever is reduced later |
| `CacheLayout.YearsKeptApart` | src/js/actions/staff.js:30-33 | storing a month for one year leaves the check's answer for the same month of any other year as it was |
| `CacheLayout.RefetchReplaysCachedMonth` | src/js/actions/staff.js:35-76 | with the corrected store keeping what the first call dispatched, a second call for the same resource and start date makes no request and dispatches exactly the same actions |

## Findings

| source | as written | input that shows it | evidently intended | confidence | as-written member | corrected member |
|---|---|---|---|---|---|---|
| src/js/actions/staff.js:123-129 | a booking on a date new to its resource replaces the resource's whole date map | bookings for resource 100004 on 2017-04-01 and then on 2017-04-02: only 2017-04-02 remains | add the new date beside the resource's other dates, so bookings accumulate per resource and date | not executed; high | `StaffActions.AsWrittenDropsEarlierDate` | `StaffActions.GroupBookingsCollects` |
| src/js/actions/staff.js:30-33 | the check reads resource, year, month, but the reducer stores resource, month | SLOTS_FETCHED for 100004, month 2; then a check for 100004, year 2017, month 2 finds nothing | the store keeps the year the action already sends (resource, year, month), so the check finds a month fetched for that year and replays it without a request, and never serves it for another year | not executed; medium (the reducer's layout is known only from its tests) | `CacheLayout.StoredSlotsNeverHit` | `CacheLayout.RefetchReplaysCachedMonth` |

`FetchSlotsForResource` and `KeyOffResourceId` keep the code's behaviour.
The corrected definitions stand beside them.

## Left out

- HTTP requests and the URL builders: each response is an input value, and
  the request the slots action would make is returned as a `SlotsRequest`.
- Promise plumbing: the `Promise.all` fan-out and fan-in of `fetchStaff`,
  the early `resolve()` calls, and the order in which the per-resource
  responses arrive. That order is an input (`detailsInArrivalOrder`), and a
  failed request is not modelled.
- FetchSlotsForResource: a failed availability request is not modelled.
  The source then dispatches only IS_LOADING, while the model always
  returns IS_LOADING followed by SLOTS_FETCHED.
- The date library: UTC parsing, formatting, `month()`, `year()` and
  `endOf('month')` are the uninterpreted functions of `DateLib`.
  `endOf('month')` mutates `startDate`; this is not modelled, and the month
  and year are read before it.
- `fromMilitaryTime` (from `src/js/utils/time`) is not part of this model;
  it is a function parameter.
- `dayPickerMonth` and `fetchedDate`: these SLOTS_FETCHED properties carry
  date objects for the UI only.
- `selectDate` and `fetchBookings`: each dispatches one action, and neither
  has logic beyond `KeyOffResourceId`.
- The store itself (`createNew`) and the concrete `initialState`: every
  lemma takes an arbitrary starting state.
- JavaScript details below the model:
  - Property lookup through the prototype chain. `images['toString']` is
    a function, not `undefined`.
  - The difference between a missing property and one set to `undefined`.
  - Numbers that are not integers, or whose `toString` uses exponent
    notation.
- Passing the reducer's two-level state to the slots action: the action
  takes the three-level layout it reads. The two are related only through
  `AlreadyFetched`, in `CacheLayout`.

/**
 How the action creator's cache check meets the cache the reducer builds.
 The reducer stores slots two levels deep (resource, then month); the
 check reads three levels (resource, then year, then month). Looking a
 year up where only month indices are stored finds nothing, so the check
 never reports a hit and every call requests the month again.
 */
module CacheLayout {
  import opened JsKeys
  import opened StaffTypes
  import opened StaffActions
  import opened StaffReducer

  /** The property keys of the twelve month indices, "0" to "11". */
  function MonthKeys(): set<string>
  {
    set m | 0 <= m < 12 :: Decimal(m)
  }

  /** Every resource entry of the cache is keyed by month indices only. */
  ghost predicate MonthKeyed(cache: SlotCache)
  {
    forall key :: key in cache ==> cache[key].Keys <= MonthKeys()
  }

  /** A year outside 0 to 11 never prints as a month index. */
  lemma YearIsNoMonthKey(year: int)
    requires year < 0 || 12 <= year
    ensures Decimal(year) !in MonthKeys()
  {
    if Decimal(year) in MonthKeys() {
      var m :| 0 <= m < 12 && Decimal(m) == Decimal(year);
      DecimalInjective(m, year);
    }
  }

  /** On a month-keyed cache the three-level check is false for every such year. */
  lemma TwoLevelCacheNeverHits(cache: SlotCache, resourceId: Id, year: int, month: int)
    requires MonthKeyed(cache)
    requires year < 0 || 12 <= year
    ensures !AlreadyFetched(cache, resourceId, year, month)
  {
    YearIsNoMonthKey(year);
  }

  /** The state after the store has reduced the actions in order. */
  function ReduceAll(dateKeyOf: Moment -> DateKey, state: StaffState, actions: seq<Action>): StaffState
    decreases |actions|
  {
    if actions == [] then state else ReduceAll(dateKeyOf, Reduce(dateKeyOf, state, actions[0]), actions[1..])
  }

  /** Every SLOTS_FETCHED among the actions carries a month index, as `month()` returns. */
  ghost predicate MonthsInRange(actions: seq<Action>)
  {
    forall i :: 0 <= i < |actions| && actions[i].SlotsFetched? ==> 0 <= actions[i].month < 12
  }

  /** Reducing actions whose months are month indices keeps the cache month-keyed. */
  lemma {:induction false} ReduceAllKeepsMonthKeyed(dateKeyOf: Moment -> DateKey, state: StaffState, actions: seq<Action>)
    requires MonthKeyed(state.allAvailableSlots)
    requires MonthsInRange(actions)
    ensures MonthKeyed(ReduceAll(dateKeyOf, state, actions).allAvailableSlots)
    decreases |actions|
  {
    if actions != [] {
      var next := Reduce(dateKeyOf, state, actions[0]);
      if actions[0].SlotsFetched? {
        var key := PropertyKey(actions[0].id);
        assert Decimal(actions[0].month) in MonthKeys();
        forall k | k in next.allAvailableSlots
          ensures next.allAvailableSlots[k].Keys <= MonthKeys()
        {
          if k != key {
            assert next.allAvailableSlots[k] == state.allAvailableSlots[k];
          }
        }
      }
      assert MonthsInRange(actions[1..]) by {
        forall i | 0 <= i < |actions| - 1 && actions[1..][i].SlotsFetched?
          ensures 0 <= actions[1..][i].month < 12
        {
          assert actions[1..][i] == actions[i + 1];
        }
      }
      ReduceAllKeepsMonthKeyed(dateKeyOf, next, actions[1..]);
    }
  }

  /**
   Whatever the store has reduced since it started with an empty cache, the
   slot check finds nothing for a real year: the cached branch of
   FetchSlotsForResource is never taken.
   */
  lemma StoredSlotsNeverHit(dateKeyOf: Moment -> DateKey, initial: StaffState, actions: seq<Action>,
                            resourceId: Id, year: int, month: int)
    requires initial.allAvailableSlots == map[]
    requires MonthsInRange(actions)
    requires year < 0 || 12 <= year
    ensures !AlreadyFetched(ReduceAll(dateKeyOf, initial, actions).allAvailableSlots, resourceId, year, month)
  {
    ReduceAllKeepsMonthKeyed(dateKeyOf, initial, actions);
    TwoLevelCacheNeverHits(ReduceAll(dateKeyOf, initial, actions).allAvailableSlots, resourceId, year, month);
  }

  // The store as the check reads it: resource, then year, then month. The
  // slots action already sends the year with every SLOTS_FETCHED.

  /** `cache[resource][year][month]`, or none when a level is missing. */
  function Lookup(cache: YearCache, resource: string, year: string, month: string): Option<DateSlots>
  {
    if resource in cache && year in cache[resource] && month in cache[resource][year]
    then Some(cache[resource][year][month])
    else None
  }

  /**
   The SLOTS_FETCHED arm for a store keyed resource, then year, then month:
   the slots go under the year the action carries, beside the resource's
   other years and months. An action with no year, and every other kind of
   action, leaves the cache alone.
   */
  function StoreByYear(cache: YearCache, action: Action): (next: YearCache)
    ensures action.SlotsFetched? && action.year.Some? ==>
      Lookup(next, PropertyKey(action.id), Decimal(action.year.value), Decimal(action.month)) == Some(action.availableSlots)
    ensures forall resource, year, month ::
      !(action.SlotsFetched? && action.year.Some? && resource == PropertyKey(action.id)
        && year == Decimal(action.year.value) && month == Decimal(action.month)) ==>
      Lookup(next, resource, year, month) == Lookup(cache, resource, year, month)
  {
    match action
    case SlotsFetched(id, month, Some(year), slots, _) =>
      var key, yearKey := PropertyKey(id), Decimal(year);
      var years := if key in cache then cache[key] else map[];
      var months := if yearKey in years then years[yearKey] else map[];
      cache[key := years[yearKey := months[Decimal(month) := slots]]]
    case _ => cache
  }

  /** The year-keyed cache after the store has reduced the actions in order. */
  function StoreAllByYear(cache: YearCache, actions: seq<Action>): YearCache
    decreases |actions|
  {
    if actions == [] then cache else StoreAllByYear(StoreByYear(cache, actions[0]), actions[1..])
  }

  /** No action removes a stored (resource, year, month) entry. */
  lemma {:induction false} StoredMonthStaysStored(cache: YearCache, actions: seq<Action>,
                                                  resource: string, year: string, month: string)
    requires Lookup(cache, resource, year, month).Some?
    ensures Lookup(StoreAllByYear(cache, actions), resource, year, month).Some?
    decreases |actions|
  {
    if actions != [] {
      StoredMonthStaysStored(StoreByYear(cache, actions[0]), actions[1..], resource, year, month);
    }
  }

  /**
   After SLOTS_FETCHED for a resource, year and month, the unchanged
   three-level check finds that month, whatever the store reduces later.
   */
  lemma FetchedMonthIsFound(cache: YearCache, id: Id, month: int, year: int, slots: DateSlots,
                            loading: Option<bool>, later: seq<Action>)
    ensures AlreadyFetched(StoreAllByYear(cache, [SlotsFetched(id, month, Some(year), slots, loading)] + later), id, year, month)
  {
    var fetched := SlotsFetched(id, month, Some(year), slots, loading);
    assert ([fetched] + later)[0] == fetched && ([fetched] + later)[1..] == later;
    StoredMonthStaysStored(StoreByYear(cache, fetched), later, PropertyKey(id), Decimal(year), Decimal(month));
  }

  /** A month stored for one year says nothing about the same month of another year. */
  lemma YearsKeptApart(cache: YearCache, id: Id, month: int, stored: int, asked: int,
                       slots: DateSlots, loading: Option<bool>)
    requires stored != asked
    ensures AlreadyFetched(StoreByYear(cache, SlotsFetched(id, month, Some(stored), slots, loading)), id, asked, month)
      == AlreadyFetched(cache, id, asked, month)
  {
    if Decimal(stored) == Decimal(asked) {
      DecimalInjective(stored, asked);
    }
    assert Lookup(StoreByYear(cache, SlotsFetched(id, month, Some(stored), slots, loading)),
                  PropertyKey(id), Decimal(asked), Decimal(month))
      == Lookup(cache, PropertyKey(id), Decimal(asked), Decimal(month));
  }

  /**
   Two calls of the slots action for the same resource and month, with the
   store keeping what the first one dispatched: the second call makes no
   request and dispatches exactly what the first did.
   */
  method RefetchReplaysCachedMonth(lib: DateLib, cache: YearCache, startDate: Moment, resourceId: Id,
                                   response: seq<ResourceAvailability>)
    returns (first: seq<Action>, second: seq<Action>, secondRequest: Option<SlotsRequest>)
    ensures secondRequest.None?
    ensures second == first
  {
    var firstRequest;
    first, firstRequest := FetchSlotsForResource(lib, cache, startDate, resourceId, response);
    var stored := StoreByYear(StoreByYear(cache, first[0]), first[1]);
    second, secondRequest := FetchSlotsForResource(lib, stored, startDate, resourceId, response);
  }
}

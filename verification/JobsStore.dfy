/** The job list's store as it runs: query objects filled field by field, filters reset and reassigned. */
module JobsStore {
  import opened Decimal
  import opened Seqs
  import opened Text
  import opened JobsQuery

  class JobsRuntimeStore {
    var pastHours: nat
    var activeSort: string
    var activeOrder: string
    var pastSort: string
    var pastOrder: string
    var page: Option<int>
    var filters: Filters

    function View(): Store
      reads this
    {
      Store(pastHours, activeSort, activeOrder, pastSort, pastOrder, page, filters)
    }

    constructor ()
      ensures View() == FreshStore
    {
      pastHours, page := DEFAULT_HOURS, Some(1);
      activeSort, activeOrder, pastSort, pastOrder := "id", "asc", "end", "desc";
      filters := Filters([], [], [], [], [], [], "");
    }

    /** `query()` and `pastQuery()`. */
    method QueryFor(route: Route) returns (result: Query)
      ensures result == QueryOf(route, View())
    {
      result := QueryOrder(route);
      if page != Some(1) { result := result.(page := PageText(page)); }
      result := QueryLists(result, filters, if route == PastJobs then filters.pastStates else filters.activeStates);
    }

    /** Sort, order and time window, where they differ from the route's defaults. */
    method QueryOrder(route: Route) returns (result: Query)
      ensures result == NoParameters.(
                sort := if route == PastJobs then Unless(pastSort, "end") else Unless(activeSort, "id"),
                order := if route == PastJobs then Unless(pastOrder, "desc") else Unless(activeOrder, "asc"),
                pastHours := if route == PastJobs && pastHours != DEFAULT_HOURS then Some(NatToString(pastHours))
                             else None)
    {
      result := NoParameters;
      if route == PastJobs {
        if pastSort != "end" { result := result.(sort := Some(pastSort)); }
        if pastOrder != "desc" { result := result.(order := Some(pastOrder)); }
        if pastHours != DEFAULT_HOURS { result := result.(pastHours := Some(NatToString(pastHours))); }
      } else {
        if activeSort != "id" { result := result.(sort := Some(activeSort)); }
        if activeOrder != "asc" { result := result.(order := Some(activeOrder)); }
      }
    }

    static method QueryLists(start: Query, f: Filters, states: seq<string>) returns (result: Query)
      requires start.states.None? && start.name.None? && start.users.None?
      requires start.accounts.None? && start.qos.None? && start.partitions.None?
      ensures result == start.(states := JoinValues(states), name := NameText(f.name), users := JoinValues(f.users),
                               accounts := JoinValues(f.accounts), qos := JoinValues(f.qos),
                               partitions := JoinValues(f.partitions))
    {
      result := start;
      if states != [] { result := result.(states := Some(Join(states, ','))); }
      if Trim(f.name) != "" { result := result.(name := Some(Trim(f.name))); }
      if f.users != [] { result := result.(users := Some(Join(f.users, ','))); }
      if f.accounts != [] { result := result.(accounts := Some(Join(f.accounts, ','))); }
      if f.qos != [] { result := result.(qos := Some(Join(f.qos, ','))); }
      if f.partitions != [] { result := result.(partitions := Some(Join(f.partitions, ','))); }
    }

    /** `syncFiltersFromRoute`: the route's filters are emptied first, then what the URL gives is set. */
    method SyncFiltersFromRoute(route: Route, q: Query, maxHours: nat)
      modifies this
      ensures View() == Synced(route, q, old(View()), maxHours)
      ensures SameElsewhere(route, old(View()), View())
    {
      ResetFilters(route);
      SyncOrder(route, q);
      if Given(q.page) { page := JsInt(q.page.value); }
      SyncLists(route, q);
      if route == PastJobs { pastHours := HoursOf(q.pastHours, maxHours); }
    }

    method ResetFilters(route: Route)
      modifies this`filters
      ensures filters == Filters(
                if route == PastJobs then old(filters.activeStates) else [],
                if route == PastJobs then [] else old(filters.pastStates), [], [], [], [], "")
    {
      filters := filters.(users := [], accounts := [], qos := [], partitions := [], name := "");
      if route == PastJobs {
        filters := filters.(pastStates := []);
      } else {
        filters := filters.(activeStates := []);
      }
    }

    method SyncOrder(route: Route, q: Query)
      modifies this`pastSort, this`activeSort, this`pastOrder, this`activeOrder
      ensures pastSort == if route == PastJobs then ValidOr(q.sort, SORT_CRITERIA, old(pastSort)) else old(pastSort)
      ensures activeSort ==
              if route == PastJobs then old(activeSort) else ValidOr(q.sort, SORT_CRITERIA, old(activeSort))
      ensures pastOrder == if route == PastJobs then ValidOr(q.order, SORT_ORDERS, old(pastOrder)) else old(pastOrder)
      ensures activeOrder ==
              if route == PastJobs then old(activeOrder) else ValidOr(q.order, SORT_ORDERS, old(activeOrder))
    {
      if Given(q.sort) && q.sort.value in SORT_CRITERIA {
        if route == PastJobs { pastSort := q.sort.value; } else { activeSort := q.sort.value; }
      }
      if Given(q.order) && q.order.value in SORT_ORDERS {
        if route == PastJobs { pastOrder := q.order.value; } else { activeOrder := q.order.value; }
      }
    }

    method SyncLists(route: Route, q: Query)
      requires filters.users == filters.accounts == filters.qos == filters.partitions == [] && filters.name == ""
      requires if route == PastJobs then filters.pastStates == [] else filters.activeStates == []
      modifies this`filters
      ensures filters == Filters(
                if route == PastJobs then old(filters.activeStates) else SplitValues(q.states),
                if route == PastJobs then SplitValues(q.states) else old(filters.pastStates),
                SplitValues(q.users), SplitValues(q.accounts), SplitValues(q.qos), SplitValues(q.partitions),
                if Given(q.name) then q.name.value else "")
    {
      if Given(q.states) {
        var states := SplitOn(q.states.value, ',');
        filters := if route == PastJobs then filters.(pastStates := states) else filters.(activeStates := states);
      }
      if Given(q.users) { filters := filters.(users := SplitOn(q.users.value, ',')); }
      if Given(q.accounts) { filters := filters.(accounts := SplitOn(q.accounts.value, ',')); }
      if Given(q.qos) { filters := filters.(qos := SplitOn(q.qos.value, ',')); }
      if Given(q.partitions) { filters := filters.(partitions := SplitOn(q.partitions.value, ',')); }
      if Given(q.name) { filters := filters.(name := q.name.value); }
    }

    /** `setupFilterQuerySync`: restores from a URL with parameters, otherwise writes the URL. */
    method SetupFilterQuerySync(route: Route, q: Query, maxHours: nat) returns (url: Query)
      modifies this
      ensures View() == Opened(route, q, old(View()), maxHours)
      ensures SameElsewhere(route, old(View()), View())
      ensures !HasParameters(route, q) ==> View() == old(View())
      ensures url == if HasParameters(route, q) then q else QueryOf(route, View())
    {
      url := q;
      if HasParameters(route, q) {
        SyncFiltersFromRoute(route, q, maxHours);
      } else {
        url := QueryFor(route);
      }
    }
  }
}

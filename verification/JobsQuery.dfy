/**
 The job list's settings in the URL: what the store serialises (stores/runtime/jobs.ts) and what a
 page restores from it (JobsPageQuery.ts), on the active and on the past jobs route.
 */
module JobsQuery {
  import opened Decimal
  import opened Seqs
  import opened Text

  datatype Route = ActiveJobs | PastJobs

  datatype Filters = Filters(
    activeStates: seq<string>, pastStates: seq<string>, users: seq<string>, accounts: seq<string>,
    qos: seq<string>, partitions: seq<string>, name: string)

  /** `page` is None when it was read as NaN. */
  datatype Store = Store(
    pastHours: nat, activeSort: string, activeOrder: string, pastSort: string, pastOrder: string,
    page: Option<int>, filters: Filters)

  /** Query parameters of a route, as strings; None when absent. */
  datatype Query = Query(
    sort: Option<string>, order: Option<string>, pastHours: Option<string>, page: Option<string>,
    states: Option<string>, name: Option<string>, users: Option<string>, accounts: Option<string>,
    qos: Option<string>, partitions: Option<string>)

  const DEFAULT_HOURS: nat := 6
  const SORT_CRITERIA: seq<string> := ["id", "user", "state", "priority", "resources", "end"]
  const SORT_ORDERS: seq<string> := ["asc", "desc"]

  const FreshStore :=
    Store(DEFAULT_HOURS, "id", "asc", "end", "desc", Some(1), Filters([], [], [], [], [], [], ""))

  // ---- Serialising --------------------------------------------------------------------------

  function JoinValues(values: seq<string>): Option<string> {
    if values == [] then None else Some(Join(values, ','))
  }

  function Unless(value: string, default: string): Option<string> {
    if value == default then None else Some(value)
  }

  function PageText(page: Option<int>): Option<string> {
    if page == Some(1) then None else Some(if page.Some? then IntToString(page.value) else "NaN")
  }

  function NameText(name: string): Option<string> {
    if Trim(name) == "" then None else Some(Trim(name))
  }

  /** `query` and `pastQuery`: settings that differ from the route's defaults. */
  function QueryOf(route: Route, s: Store): Query {
    var f := s.filters;
    if route == PastJobs then
      Query(Unless(s.pastSort, "end"), Unless(s.pastOrder, "desc"),
            if s.pastHours == DEFAULT_HOURS then None else Some(NatToString(s.pastHours)),
            PageText(s.page), JoinValues(f.pastStates), NameText(f.name), JoinValues(f.users),
            JoinValues(f.accounts), JoinValues(f.qos), JoinValues(f.partitions))
    else
      Query(Unless(s.activeSort, "id"), Unless(s.activeOrder, "asc"), None,
            PageText(s.page), JoinValues(f.activeStates), NameText(f.name), JoinValues(f.users),
            JoinValues(f.accounts), JoinValues(f.qos), JoinValues(f.partitions))
  }

  // ---- Restoring ------------------------------------------------------------------------------

  predicate Given(parameter: Option<string>) { parameter.Some? && parameter.value != "" }

  function SplitValues(parameter: Option<string>): seq<string> {
    if Given(parameter) then SplitOn(parameter.value, ',') else []
  }

  function ValidOr(parameter: Option<string>, valid: seq<string>, current: string): string {
    if Given(parameter) && parameter.value in valid then parameter.value else current
  }

  function PageOr(parameter: Option<string>, current: Option<int>): Option<int> {
    if Given(parameter) then JsInt(parameter.value) else current
  }

  /** `syncPastHoursFromRoute`: within 1 and the cluster's maximum, the default when absent or no number. */
  function HoursOf(parameter: Option<string>, maxHours: nat): nat {
    if !Given(parameter) || JsInt(parameter.value).None? then DEFAULT_HOURS
    else Max(1, Min(JsInt(parameter.value).value, maxHours))
  }

  /** `syncFiltersFromRoute`. */
  function Synced(route: Route, q: Query, s: Store, maxHours: nat): Store {
    var f := Filters(
      if route == PastJobs then s.filters.activeStates else SplitValues(q.states),
      if route == PastJobs then SplitValues(q.states) else s.filters.pastStates,
      SplitValues(q.users), SplitValues(q.accounts), SplitValues(q.qos), SplitValues(q.partitions),
      if Given(q.name) then q.name.value else "");
    if route == PastJobs then
      s.(pastSort := ValidOr(q.sort, SORT_CRITERIA, s.pastSort),
         pastOrder := ValidOr(q.order, SORT_ORDERS, s.pastOrder),
         page := PageOr(q.page, s.page), filters := f, pastHours := HoursOf(q.pastHours, maxHours))
    else
      s.(activeSort := ValidOr(q.sort, SORT_CRITERIA, s.activeSort),
         activeOrder := ValidOr(q.order, SORT_ORDERS, s.activeOrder), page := PageOr(q.page, s.page), filters := f)
  }

  const NoParameters := Query(None, None, None, None, None, None, None, None, None, None)

  /** Some parameter of this route is present, if only as an empty text; the active route has no time window. */
  predicate HasParameters(route: Route, q: Query) {
    (if route == PastJobs then q else q.(pastHours := None)) != NoParameters
  }

  /** `setupFilterQuerySync`: a route without parameters leaves the store as it is. */
  function Opened(route: Route, q: Query, s: Store, maxHours: nat): Store {
    if HasParameters(route, q) then Synced(route, q, s, maxHours) else s
  }

  // ---- What a route's settings are ----------------------------------------------------------------

  /** The settings of one route, the name as the filter uses it. */
  datatype Settings = Settings(
    sort: string, order: string, pastHours: nat, page: Option<int>, states: seq<string>, users: seq<string>,
    accounts: seq<string>, qos: seq<string>, partitions: seq<string>, name: string)

  function SettingsOf(route: Route, s: Store): Settings {
    var f := s.filters;
    if route == PastJobs then
      Settings(s.pastSort, s.pastOrder, s.pastHours, s.page, f.pastStates, f.users, f.accounts, f.qos,
               f.partitions, f.name)
    else
      Settings(s.activeSort, s.activeOrder, DEFAULT_HOURS, s.page, f.activeStates, f.users, f.accounts, f.qos,
               f.partitions, f.name)
  }

  /** What the type of the store allows: known criteria and orders, a page that is a number. */
  predicate Typed(s: Store) {
    && s.activeSort in SORT_CRITERIA && s.pastSort in SORT_CRITERIA
    && s.activeOrder in SORT_ORDERS && s.pastOrder in SORT_ORDERS && s.page.Some?
  }

  /** A list the URL can carry: no comma in a value, and not a single empty value. */
  predicate Portable(values: seq<string>) {
    (forall v | v in values :: ',' !in v) && values != [""]
  }

  predicate PortableHours(hours: nat, maxHours: nat) {
    hours == DEFAULT_HOURS || hours == 1 || 1 <= hours <= maxHours
  }

  predicate PortableSettings(route: Route, x: Settings, maxHours: nat) {
    && Portable(x.states) && Portable(x.users) && Portable(x.accounts) && Portable(x.qos) && Portable(x.partitions)
    && (route == PastJobs ==> PortableHours(x.pastHours, maxHours))
  }

  // ---- The round trip ---------------------------------------------------------------------------------

  lemma {:induction false} JoinEmpty(values: seq<string>)
    requires values != [] && Join(values, ',') == ""
    ensures values == [""]
  {
  }

  lemma ListRoundTrip(values: seq<string>)
    ensures SplitValues(JoinValues(values)) == values <==> Portable(values)
  {
    if values != [] {
      var text := Join(values, ',');
      if text == "" {
        JoinEmpty(values);
      } else if forall v | v in values :: ',' !in v {
        SplitJoin(values, ',');
        assert values == [""] ==> text == "";
      } else {
        assert SplitValues(JoinValues(values)) == SplitOn(text, ',');
      }
    }
  }

  lemma PageRoundTrip(page: Option<int>)
    requires page.Some?
    ensures PageOr(PageText(page), Some(1)) == page
  {
    IntPrinted(page.value);
  }

  lemma HoursRoundTrip(hours: nat, maxHours: nat)
    ensures HoursOf(if hours == DEFAULT_HOURS then None else Some(NatToString(hours)), maxHours) == hours
       <==> PortableHours(hours, maxHours)
  {
    NatPrinted(hours);
  }

  lemma ChoiceRoundTrip(value: string, default: string, valid: seq<string>)
    requires value in valid && default in valid && "" !in valid
    ensures ValidOr(Unless(value, default), valid, default) == value
  {
  }

  lemma ChoicesListed()
    ensures "" !in SORT_CRITERIA && "id" in SORT_CRITERIA && "end" in SORT_CRITERIA
    ensures "" !in SORT_ORDERS && "asc" in SORT_ORDERS && "desc" in SORT_ORDERS
  {
    assert SORT_CRITERIA[0] == "id" && SORT_CRITERIA[5] == "end" && SORT_ORDERS[0] == "asc" && SORT_ORDERS[1] == "desc";
  }

  /** No parameter at all: the settings were the defaults, and a fresh store has them. */
  lemma NoParametersMeansDefaults(route: Route, s: Store)
    requires QueryOf(route, s) == NoParameters
    ensures SettingsOf(route, s).(name := Trim(s.filters.name)) == SettingsOf(route, FreshStore)
  {
  }

  /**
   URL round trip. A fresh page opened on the URL of a store has every setting of that route, the name
   trimmed, exactly when the lists and the hours are ones a URL can carry.
   */
  lemma UrlRoundTrip(route: Route, s: Store, maxHours: nat)
    requires Typed(s)
    ensures SettingsOf(route, Opened(route, QueryOf(route, s), FreshStore, maxHours))
            == SettingsOf(route, s).(name := Trim(s.filters.name))
       <==> PortableSettings(route, SettingsOf(route, s), maxHours)
  {
    var q, x := QueryOf(route, s), SettingsOf(route, s);
    ListRoundTrip(x.states);
    ListRoundTrip(x.users);
    ListRoundTrip(x.accounts);
    ListRoundTrip(x.qos);
    ListRoundTrip(x.partitions);
    if q == NoParameters {
      NoParametersMeansDefaults(route, s);
    } else {
      PageRoundTrip(s.page);
      HoursRoundTrip(s.pastHours, maxHours);
      ChoicesListed();
      ChoiceRoundTrip(s.pastSort, "end", SORT_CRITERIA);
      ChoiceRoundTrip(s.activeSort, "id", SORT_CRITERIA);
      ChoiceRoundTrip(s.pastOrder, "desc", SORT_ORDERS);
      ChoiceRoundTrip(s.activeOrder, "asc", SORT_ORDERS);
    }
  }

  // ---- From any store -------------------------------------------------------------------------------

  /** What belongs to the other route: its sort, order, states, and the time window of past jobs. */
  predicate SameElsewhere(route: Route, s: Store, s': Store) {
    if route == PastJobs then
      s'.activeSort == s.activeSort && s'.activeOrder == s.activeOrder
      && s'.filters.activeStates == s.filters.activeStates
    else
      s'.pastSort == s.pastSort && s'.pastOrder == s.pastOrder && s'.pastHours == s.pastHours
      && s'.filters.pastStates == s.filters.pastStates
  }

  /** Opening a route on any URL, from any store, leaves the other route's settings alone. */
  lemma OtherRouteKept(route: Route, q: Query, s: Store, maxHours: nat)
    ensures SameElsewhere(route, s, Opened(route, q, s, maxHours))
  {
  }

  /** A parameter that is present but empty counts: the route's filters are emptied. */
  lemma EmptyParameterEmpties(route: Route, s: Store, maxHours: nat)
    ensures var s' := Opened(route, NoParameters.(users := Some("")), s, maxHours);
            && s'.filters.users == s'.filters.accounts == s'.filters.qos == s'.filters.partitions == []
            && s'.filters.name == ""
            && (if route == PastJobs then s'.filters.pastStates else s'.filters.activeStates) == []
            && Opened(route, NoParameters, s, maxHours) == s
  {
  }

  /** What a URL without this parameter leaves of a setting it omits at its default. */
  ghost predicate Agrees<T>(value: T, default: T, current: T) { value == default ==> current == default }

  /**
   Where a URL is opened matters only for what it omits: sort, order and page at their defaults, and everything
   when it holds no parameter at all.
   */
  ghost predicate StoreAgrees(route: Route, x: Settings, s0: Store, q: Query) {
    var y := SettingsOf(route, s0);
    if q == NoParameters then x == y
    else
      && Agrees(x.sort, if route == PastJobs then "end" else "id", y.sort)
      && Agrees(x.order, if route == PastJobs then "desc" else "asc", y.order)
      && Agrees(x.page, Some(1), y.page)
  }

  lemma ChoiceAnywhere(value: string, default: string, valid: seq<string>, current: string)
    requires value in valid && default in valid && "" !in valid
    ensures ValidOr(Unless(value, default), valid, current) == value <==> Agrees(value, default, current)
  {
  }

  lemma PageAnywhere(page: Option<int>, current: Option<int>)
    requires page.Some?
    ensures PageOr(PageText(page), current) == page <==> Agrees(page, Some(1), current)
  {
    IntPrinted(page.value);
  }

  /** The URL of one store opened on another gives its settings exactly if they are portable and the other agrees. */
  lemma UrlRoundTripAnywhere(route: Route, s: Store, s0: Store, maxHours: nat)
    requires Typed(s)
    ensures var x := SettingsOf(route, s).(name := Trim(s.filters.name));
            SettingsOf(route, Opened(route, QueryOf(route, s), s0, maxHours)) == x
            <==> PortableSettings(route, x, maxHours) && StoreAgrees(route, x, s0, QueryOf(route, s))
  {
    var q, x := QueryOf(route, s), SettingsOf(route, s);
    ListRoundTrip(x.states);
    ListRoundTrip(x.users);
    ListRoundTrip(x.accounts);
    ListRoundTrip(x.qos);
    ListRoundTrip(x.partitions);
    if q == NoParameters {
      NoParametersMeansDefaults(route, s);
    } else {
      PageAnywhere(s.page, s0.page);
      HoursRoundTrip(s.pastHours, maxHours);
      ChoicesListed();
      ChoiceAnywhere(s.pastSort, "end", SORT_CRITERIA, s0.pastSort);
      ChoiceAnywhere(s.activeSort, "id", SORT_CRITERIA, s0.activeSort);
      ChoiceAnywhere(s.pastOrder, "desc", SORT_ORDERS, s0.pastOrder);
      ChoiceAnywhere(s.activeOrder, "asc", SORT_ORDERS, s0.activeOrder);
    }
  }
}

/**
 * The missing-persons list page: the query parameters built from the search
 * box and the filters, the age-range select and its labels, the filter
 * updates and reset, and the "other persons" list, which leaves out every
 * person already shown as nearby.
 *
 * Fetching, geolocation and the map are not modelled; a latitude or
 * longitude is sent as the text the browser prints for it, an input here.
 */
module MissingPersonsPage {
  import opened Wrappers
  import opened Text
  import opened NearbyRoute

  datatype AgeRange = AgeRange(low: nat, high: nat)

  /** The `filters` state. */
  datatype Filters = Filters(ageRange: AgeRange, gender: string, dateRange: string)

  const InitialFilters := Filters(AgeRange(0, 100), "all", "all")

  /** `constructFilterParams()`, in the order the keys are set. */
  function FilterParams(searchQuery: string, filters: Filters): (r: seq<Param>)
    ensures 2 <= |r| <= 5
    ensures forall i :: 0 <= i < |r| ==> r[i].key != Lat && r[i].key != Lng && r[i].key != Radius
  {
    (if searchQuery != "" then [Param(Search, searchQuery)] else []) +
    (if filters.gender != "all" then [Param(Gender, filters.gender)] else []) +
    [Param(MinAge, NatToString(filters.ageRange.low)), Param(MaxAge, NatToString(filters.ageRange.high))] +
    (if filters.dateRange != "all" then [Param(DateRange, filters.dateRange)] else [])
  }

  /** The query of `fetchNearbyPersons`: position, a 10 km radius, then the filter parameters. */
  function NearbyQuery(latText: string, lngText: string, searchQuery: string, filters: Filters): seq<Param>
  {
    [Param(Lat, latText), Param(Lng, lngText), Param(Radius, "10")] + FilterParams(searchQuery, filters)
  }

  /**
   * What the page sends under each key: both ages always, the search only
   * when non-empty, gender and date range only when not "all", and never a
   * position or a radius.
   */
  function Sent(searchQuery: string, filters: Filters, k: ParamKey): Option<string>
  {
    match k
    case Search => if searchQuery != "" then Some(searchQuery) else None
    case Gender => if filters.gender != "all" then Some(filters.gender) else None
    case MinAge => Some(NatToString(filters.ageRange.low))
    case MaxAge => Some(NatToString(filters.ageRange.high))
    case DateRange => if filters.dateRange != "all" then Some(filters.dateRange) else None
    case _ => None
  }

  /** Reading any key of the built parameters gives what the page meant to send under it. */
  lemma FilterParamsKeys(searchQuery: string, filters: Filters, k: ParamKey)
    ensures Get(FilterParams(searchQuery, filters), k) == Sent(searchQuery, filters, k)
  {
    var a := if searchQuery != "" then [Param(Search, searchQuery)] else [];
    var b := if filters.gender != "all" then [Param(Gender, filters.gender)] else [];
    var c := [Param(MinAge, NatToString(filters.ageRange.low)), Param(MaxAge, NatToString(filters.ageRange.high))];
    var d := if filters.dateRange != "all" then [Param(DateRange, filters.dateRange)] else [];
    GetOfParts(a, b, c, d, k);
  }

  /** Looking a key up in three short lists around a pair: the first part holding it answers. */
  lemma GetOfParts(a: seq<Param>, b: seq<Param>, c: seq<Param>, d: seq<Param>, k: ParamKey)
    requires |a| <= 1 && |b| <= 1 && |c| == 2 && |d| <= 1
    ensures Get(a + b + c + d, k) ==
      if a != [] && a[0].key == k then Some(a[0].value)
      else if b != [] && b[0].key == k then Some(b[0].value)
      else if c[0].key == k then Some(c[0].value)
      else if c[1].key == k then Some(c[1].value)
      else if d != [] && d[0].key == k then Some(d[0].value)
      else None
  {
    assert a + b + c + d == a + (b + (c + d));
    GetAfterSingle(a, b + (c + d), k);
    GetAfterSingle(b, c + d, k);
    assert c + d == [c[0]] + ([c[1]] + d);
    GetCons(c[0], [c[1]] + d, k);
    GetCons(c[1], d, k);
    SingleGet(d, k);
  }

  /** Looking a key up behind a list of at most one parameter. */
  lemma GetAfterSingle(a: seq<Param>, b: seq<Param>, k: ParamKey)
    requires |a| <= 1
    ensures Get(a + b, k) == if a != [] && a[0].key == k then Some(a[0].value) else Get(b, k)
  {
    if a == [] {
      assert a + b == b;
    } else {
      assert a + b == [a[0]] + b;
      GetCons(a[0], b, k);
    }
  }

  /** An empty or one-parameter list holds at most its one parameter. */
  lemma SingleGet(a: seq<Param>, k: ParamKey)
    requires |a| <= 1
    ensures Get(a, k) == if a != [] && a[0].key == k then Some(a[0].value) else None
  {
    if a != [] {
      GetCons(a[0], [], k);
      assert a == [a[0]] + [];
    }
  }

  /** Looking a key up in a list starts at its head. */
  lemma GetCons(p: Param, rest: seq<Param>, k: ParamKey)
    ensures Get([p] + rest, k) == if p.key == k then Some(p.value) else Get(rest, k)
  {
    assert ([p] + rest)[1..] == rest;
  }

  /** Looking a key up in `a + b` looks in `a` first. */
  lemma {:induction false} GetAppend(a: seq<Param>, b: seq<Param>, k: ParamKey)
    ensures Get(a + b, k) == if Get(a, k).Some? then Get(a, k) else Get(b, k)
  {
    if a != [] {
      assert (a + b)[0] == a[0];
      assert (a + b)[1..] == a[1..] + b;
      if a[0].key != k {
        GetAppend(a[1..], b, k);
        assert Get(a + b, k) == Get(a[1..] + b, k);
        assert Get(a, k) == Get(a[1..], k);
      }
    } else {
      assert a + b == b;
    }
  }

  /** The route reads the filter parameters behind the position and radius unchanged. */
  lemma NearbyQueryKeys(latText: string, lngText: string, searchQuery: string, filters: Filters, k: ParamKey)
    ensures var ps := FilterParams(searchQuery, filters);
      Get(NearbyQuery(latText, lngText, searchQuery, filters), k) ==
        if k == Lat then Some(latText) else if k == Lng then Some(lngText)
        else if k == Radius then Some("10") else Get(ps, k)
  {
    var ps := FilterParams(searchQuery, filters);
    assert NearbyQuery(latText, lngText, searchQuery, filters) ==
      [Param(Lat, latText)] + ([Param(Lng, lngText)] + ([Param(Radius, "10")] + ps));
    GetCons(Param(Lat, latText), [Param(Lng, lngText)] + ([Param(Radius, "10")] + ps), k);
    GetCons(Param(Lng, lngText), [Param(Radius, "10")] + ps, k);
    GetCons(Param(Radius, "10"), ps, k);
  }

  /**
   * The route reads back what the page sends: the search text, both ages,
   * the gender unless it is "all" or empty, and the period for "week",
   * "month" or "year".
   */
  lemma RouteReadsFilters(latText: string, lngText: string, searchQuery: string, filters: Filters)
    ensures var q := NearbyQuery(latText, lngText, searchQuery, filters);
      WhereClause(q) ==
        [NameContains(searchQuery), AgeBetween(Some(filters.ageRange.low), Some(filters.ageRange.high))] +
        (if filters.gender != "all" && filters.gender != "" then [GenderIs(filters.gender)] else []) +
        PeriodCondition(if filters.dateRange != "all" then Some(filters.dateRange) else None)
  {
    var q := NearbyQuery(latText, lngText, searchQuery, filters);
    FilterParamsKeys(searchQuery, filters, MinAge);
    FilterParamsKeys(searchQuery, filters, MaxAge);
    FilterParamsKeys(searchQuery, filters, Search);
    FilterParamsKeys(searchQuery, filters, Gender);
    FilterParamsKeys(searchQuery, filters, DateRange);
    NearbyQueryKeys(latText, lngText, searchQuery, filters, MinAge);
    NearbyQueryKeys(latText, lngText, searchQuery, filters, MaxAge);
    NearbyQueryKeys(latText, lngText, searchQuery, filters, Search);
    NearbyQueryKeys(latText, lngText, searchQuery, filters, Gender);
    NearbyQueryKeys(latText, lngText, searchQuery, filters, DateRange);
    ParseIntOfNat(filters.ageRange.low);
    ParseIntOfNat(filters.ageRange.high);
    assert GetOr(q, MinAge, "0") == NatToString(filters.ageRange.low);
    assert GetOr(q, MaxAge, "100") == NatToString(filters.ageRange.high);
    assert AgeCondition(q) == AgeBetween(Some(filters.ageRange.low), Some(filters.ageRange.high));
    assert GetOr(q, Search, "") == searchQuery;
  }

  /** The nearby query asks for a 10 km radius. */
  lemma NearbyRadius(latText: string, lngText: string, searchQuery: string, filters: Filters)
    ensures RadiusOf(NearbyQuery(latText, lngText, searchQuery, filters)) == Some(10.0)
  {
    NearbyQueryKeys(latText, lngText, searchQuery, filters, Radius);
    ReadsTen();
  }

  /** The options of the age select; `Custom` is shown for a range no option gives. */
  datatype AgeChoice = AllAges | Children | Teenagers | Adults | Custom

  /** The `value` of the age select, computed from the range. */
  function ChoiceOf(r: AgeRange): AgeChoice
  {
    if r == AgeRange(0, 100) then AllAges
    else if r == AgeRange(0, 12) then Children
    else if r == AgeRange(13, 18) then Teenagers
    else if r == AgeRange(19, 100) then Adults
    else Custom
  }

  /** The range its `onChange` stores; any other value gives 0 to 100. */
  function RangeOf(c: AgeChoice): AgeRange
  {
    match c
    case Children => AgeRange(0, 12)
    case Teenagers => AgeRange(13, 18)
    case Adults => AgeRange(19, 100)
    case _ => AgeRange(0, 100)
  }

  /** Choosing an option shows that option again; a shown option stores the range it was computed from. */
  lemma AgeChoiceRoundTrip(c: AgeChoice, r: AgeRange)
    ensures c != Custom ==> ChoiceOf(RangeOf(c)) == c
    ensures ChoiceOf(r) != Custom ==> RangeOf(ChoiceOf(r)) == r
    ensures ChoiceOf(RangeOf(Custom)) == AllAges
  {
  }

  /** One call of `handleFilterChange`, by key. */
  datatype FilterChange = AgeRangeTo(range: AgeRange) | GenderTo(gender: string) | DateRangeTo(dateRange: string)

  /** "Other persons": the list from the server without anyone whose id is among the nearby persons. */
  function WithoutNearby(data: seq<MissingPerson>, nearby: seq<MissingPerson>): seq<MissingPerson>
  {
    if data == [] then []
    else (if data[0].id in Ids(nearby) then [] else [data[0]]) + WithoutNearby(data[1..], nearby)
  }

  /** The set of ids in a list. */
  function Ids(s: seq<MissingPerson>): set<string>
  {
    set p | p in s :: p.id
  }

  /** The "other persons" list keeps exactly the persons whose id is not nearby. */
  lemma {:induction false} WithoutNearbyMembers(data: seq<MissingPerson>, nearby: seq<MissingPerson>)
    ensures forall p :: p in WithoutNearby(data, nearby) <==> p in data && p.id !in Ids(nearby)
  {
    if data != [] {
      WithoutNearbyMembers(data[1..], nearby);
      assert data == [data[0]] + data[1..];
    }
  }

  /** The filter works piece by piece, so it keeps the server's order. */
  lemma {:induction false} WithoutNearbyAppend(a: seq<MissingPerson>, b: seq<MissingPerson>, nearby: seq<MissingPerson>)
    ensures WithoutNearby(a + b, nearby) == WithoutNearby(a, nearby) + WithoutNearby(b, nearby)
  {
    if a != [] {
      assert (a + b)[0] == a[0];
      assert (a + b)[1..] == a[1..] + b;
      WithoutNearbyAppend(a[1..], b, nearby);
      var head := if a[0].id in Ids(nearby) then [] else [a[0]];
      assert WithoutNearby(a + b, nearby) == head + WithoutNearby(a[1..] + b, nearby);
      assert WithoutNearby(a, nearby) == head + WithoutNearby(a[1..], nearby);
    } else {
      assert a + b == b;
    }
  }

  /** The page's state. */
  class ListPage {
    var searchQuery: string
    var filters: Filters
    var nearbyPersons: seq<MissingPerson>
    var otherPersons: seq<MissingPerson>

    constructor ()
      ensures searchQuery == "" && filters == InitialFilters && nearbyPersons == [] && otherPersons == []
    {
      searchQuery := "";
      filters := InitialFilters;
      nearbyPersons := [];
      otherPersons := [];
    }

    /** `handleFilterChange(key, value)`: replace the named filter and nothing else. */
    method HandleFilterChange(change: FilterChange)
      modifies this`filters
      ensures change.AgeRangeTo? ==> filters == old(filters).(ageRange := change.range)
      ensures change.GenderTo? ==> filters == old(filters).(gender := change.gender)
      ensures change.DateRangeTo? ==> filters == old(filters).(dateRange := change.dateRange)
    {
      match change
      case AgeRangeTo(r) => filters := filters.(ageRange := r);
      case GenderTo(g) => filters := filters.(gender := g);
      case DateRangeTo(d) => filters := filters.(dateRange := d);
    }

    /** The age select's `onChange`. */
    method SelectAge(c: AgeChoice)
      modifies this`filters
      ensures filters == old(filters).(ageRange := RangeOf(c))
      ensures c != Custom ==> ChoiceOf(filters.ageRange) == c
    {
      HandleFilterChange(AgeRangeTo(RangeOf(c)));
    }

    /** "Reset Filters": empty search and the initial filters. */
    method ResetFilters()
      modifies this`searchQuery, this`filters
      ensures searchQuery == "" && filters == InitialFilters
      ensures FilterParams(searchQuery, filters) ==
        [Param(MinAge, NatToString(0)), Param(MaxAge, NatToString(100))]
    {
      searchQuery := "";
      filters := InitialFilters;
    }

    /** The end of `fetchNearbyPersons`: the route's list, or an empty list when the request failed. */
    method ReceiveNearbyPersons(response: Option<seq<MissingPerson>>)
      modifies this`nearbyPersons
      ensures nearbyPersons == if response.Some? then response.value else []
    {
      match response
      case Some(data) => nearbyPersons := data;
      case None => nearbyPersons := [];
    }

    /**
     * The end of `fetchOtherPersons`: the server's list without the persons
     * already shown as nearby, or an empty list when the request failed.
     */
    method ReceiveOtherPersons(response: Option<seq<MissingPerson>>)
      modifies this`otherPersons
      ensures response.Some? ==> otherPersons == WithoutNearby(response.value, nearbyPersons)
      ensures response.Some? ==> forall p :: p in otherPersons <==> p in response.value && p.id !in Ids(nearbyPersons)
      ensures response.None? ==> otherPersons == []
    {
      match response
      case Some(data) =>
        otherPersons := WithoutNearby(data, nearbyPersons);
        WithoutNearbyMembers(data, nearbyPersons);
      case None =>
        otherPersons := [];
    }
  }
}

/**
 * The nearby missing-persons route: reading the query string with its
 * defaults, building the database filter, and turning the rows the
 * database returns into the list of persons within the radius, nearest
 * first.
 *
 * The database is not modelled: the rows it returns for the filter are an
 * input. The great-circle distance is an input function too, already
 * rounded to two decimals as the route does; the date arithmetic behind the
 * "last seen within" filter is left abstract as a period.
 */
module NearbyRoute {
  import opened Wrappers
  import opened Text
  import opened StableSort

  /** The fields of a missing-person row the route and the list page use. */
  datatype MissingPerson = MissingPerson(id: string, fullName: string, age: int, gender: string, lat: real, lng: real)

  /** The query-string keys the list page sends and the routes read. */
  datatype ParamKey = Lat | Lng | Radius | Search | Gender | MinAge | MaxAge | DateRange | ExcludeNearby

  datatype Param = Param(key: ParamKey, value: string)

  /** `searchParams.get(key)`: the first value under `key`, or null. */
  function Get(params: seq<Param>, key: ParamKey): Option<string>
  {
    if params == [] then None
    else if params[0].key == key then Some(params[0].value)
    else Get(params[1..], key)
  }

  /** `searchParams.get(key) || fallback`: an absent or empty value reads as `fallback`. */
  function GetOr(params: seq<Param>, key: ParamKey, fallback: string): string
  {
    match Get(params, key)
    case Some(v) => if v != "" then v else fallback
    case None => fallback
  }

  datatype Period = Week | Month | Year

  /** One entry of the `AND` list of `whereClause`. */
  datatype Condition =
    | NameContains(text: string)
    | AgeBetween(min: Option<int>, max: Option<int>)
    | GenderIs(gender: string)
    | LastSeenWithin(period: Period)

  /** Only "week", "month" and "year" give a start date; anything else, "all" included, adds nothing. */
  function PeriodOf(dateRange: Option<string>): Option<Period>
  {
    if dateRange == Some("week") then Some(Week)
    else if dateRange == Some("month") then Some(Month)
    else if dateRange == Some("year") then Some(Year)
    else None
  }

  function GenderCondition(gender: Option<string>): seq<Condition>
  {
    if gender.Some? && gender.value != "" && gender.value != "all" then [GenderIs(gender.value)] else []
  }

  function PeriodCondition(dateRange: Option<string>): seq<Condition>
  {
    match PeriodOf(dateRange)
    case Some(p) => [LastSeenWithin(p)]
    case None => []
  }

  /** The minimum and maximum age; a value `parseInt` cannot read is NaN, here `None`. */
  function AgeCondition(params: seq<Param>): Condition
  {
    AgeBetween(ParseInt(GetOr(params, MinAge, "0")), ParseInt(GetOr(params, MaxAge, "100")))
  }

  /** `whereClause.AND`. */
  function WhereClause(params: seq<Param>): (r: seq<Condition>)
    ensures 2 <= |r| <= 4 && r[0] == NameContains(GetOr(params, Search, "")) && r[1] == AgeCondition(params)
  {
    [NameContains(GetOr(params, Search, "")), AgeCondition(params)] +
    GenderCondition(Get(params, Gender)) + PeriodCondition(Get(params, DateRange))
  }

  /** The radius in kilometres; NaN when given but unreadable. */
  function RadiusOf(params: seq<Param>): Option<real>
  {
    ParseFloat(GetOr(params, Radius, "50"))
  }

  datatype NearbyResponse = InvalidLocation | Persons(rows: seq<Keyed<MissingPerson>>)

  /** Each row paired with its distance from the query point. */
  function WithDistances(lat: real, lng: real, rows: seq<MissingPerson>, distance: (real, real, MissingPerson) -> real): (r: seq<Keyed<MissingPerson>>)
    ensures |r| == |rows|
    ensures forall i :: 0 <= i < |rows| ==> r[i] == Keyed(rows[i], distance(lat, lng, rows[i]))
  {
    if rows == [] then [] else [Keyed(rows[0], distance(lat, lng, rows[0]))] + WithDistances(lat, lng, rows[1..], distance)
  }

  /** `distance <= radius`; every comparison with NaN is false. */
  predicate InRadius(row: Keyed<MissingPerson>, radius: Option<real>)
  {
    radius.Some? && row.key <= radius.value
  }

  function WithinRadius(rows: seq<Keyed<MissingPerson>>, radius: Option<real>): seq<Keyed<MissingPerson>>
  {
    if rows == [] then []
    else (if InRadius(rows[0], radius) then [rows[0]] else []) + WithinRadius(rows[1..], radius)
  }

  /** `GET`: 400 on an unreadable position, else the rows within the radius, nearest first. */
  function Nearby(params: seq<Param>, found: seq<MissingPerson>, distance: (real, real, MissingPerson) -> real): (r: NearbyResponse)
    ensures r.InvalidLocation? <==> ParseFloat(GetOr(params, Lat, "")).None? || ParseFloat(GetOr(params, Lng, "")).None?
  {
    var lat := ParseFloat(GetOr(params, Lat, ""));
    var lng := ParseFloat(GetOr(params, Lng, ""));
    if lat.None? || lng.None? then InvalidLocation
    else Persons(SortBy(false, WithinRadius(WithDistances(lat.value, lng.value, found, distance), RadiusOf(params))))
  }

  /** The filter keeps exactly the rows within the radius, in their order. */
  lemma {:induction false} WithinRadiusShape(rows: seq<Keyed<MissingPerson>>, radius: Option<real>)
    ensures forall x :: x in WithinRadius(rows, radius) <==> x in rows && InRadius(x, radius)
    ensures multiset(WithinRadius(rows, radius)) <= multiset(rows)
  {
    if rows != [] {
      WithinRadiusShape(rows[1..], radius);
      assert rows == [rows[0]] + rows[1..];
    }
  }

  /** With no parameters the route searches every name and ages 0 to 100. */
  lemma WhereDefaults()
    ensures WhereClause([]) == [NameContains(""), AgeBetween(Some(0), Some(100))]
  {
    ReadsZero();
    ReadsHundred();
  }

  lemma ReadsZero()
    ensures ParseInt("0") == Some(0)
  {
    ParseIntOfNat(0);
    assert NatToString(0) == "0";
  }

  lemma ReadsHundred()
    ensures ParseInt("100") == Some(100)
  {
    ParseIntOfNat(100);
    assert NatToString(1) == "1";
    assert NatToString(10) == "10";
    assert NatToString(100) == "100";
  }

  /** With no radius the route searches within 50 km. */
  lemma RadiusDefault()
    ensures RadiusOf([]) == Some(50.0)
  {
    ReadsFifty();
  }

  lemma ReadsFifty()
    ensures ParseFloat("50") == Some(50.0)
  {
    assert DigitPrefix("50") == "50";
    assert UnsignedPrefixFloat("50") == Some(50.0);
  }

  lemma ReadsTen()
    ensures ParseFloat("10") == Some(10.0)
  {
    assert DigitPrefix("10") == "10";
    assert UnsignedPrefixFloat("10") == Some(10.0);
  }

  /** The filter always starts with the name and age clauses; gender and period are added only when set. */
  lemma WhereClauseShape(params: seq<Param>)
    ensures var w := WhereClause(params);
      2 <= |w| <= 4 && w[0] == NameContains(GetOr(params, Search, "")) && w[1].AgeBetween? &&
      (forall g :: GenderIs(g) in w <==> Get(params, Gender) == Some(g) && g != "" && g != "all") &&
      (forall p :: LastSeenWithin(p) in w <==> PeriodOf(Get(params, DateRange)) == Some(p))
  {
    var head := [NameContains(GetOr(params, Search, "")), AgeCondition(params)];
    var gc := GenderCondition(Get(params, Gender));
    var pc := PeriodCondition(Get(params, DateRange));
    var w := WhereClause(params);
    assert w == head + gc + pc;
    forall g
      ensures GenderIs(g) in w <==> Get(params, Gender) == Some(g) && g != "" && g != "all"
    {
      assert GenderIs(g) in w <==> GenderIs(g) in gc;
    }
    forall p
      ensures LastSeenWithin(p) in w <==> PeriodOf(Get(params, DateRange)) == Some(p)
    {
      assert LastSeenWithin(p) in w <==> LastSeenWithin(p) in pc;
    }
  }

  /**
   * The answer holds exactly the rows within the radius, each once per
   * time the database returned it, sorted by distance, with rows at equal
   * distance in database order.
   */
  lemma NearbyRows(params: seq<Param>, found: seq<MissingPerson>, distance: (real, real, MissingPerson) -> real)
    requires Nearby(params, found, distance).Persons?
    ensures var lat := ParseFloat(GetOr(params, Lat, "")).value;
      var lng := ParseFloat(GetOr(params, Lng, "")).value;
      var rows := Nearby(params, found, distance).rows;
      var candidates := WithDistances(lat, lng, found, distance);
      Ordered(false, rows) &&
      (forall x :: x in rows ==> RadiusOf(params).Some? && x.key <= RadiusOf(params).value) &&
      (forall x :: x in rows <==> x in candidates && InRadius(x, RadiusOf(params))) &&
      multiset(rows) == multiset(WithinRadius(candidates, RadiusOf(params))) &&
      (forall v :: WithKey(v, rows) == WithKey(v, WithinRadius(candidates, RadiusOf(params))))
  {
    var lat := ParseFloat(GetOr(params, Lat, "")).value;
    var lng := ParseFloat(GetOr(params, Lng, "")).value;
    var kept := WithinRadius(WithDistances(lat, lng, found, distance), RadiusOf(params));
    SortByOrdered(false, kept);
    WithinRadiusShape(WithDistances(lat, lng, found, distance), RadiusOf(params));
    forall v {
      SortByStable(false, v, kept);
    }
    forall x | x in SortBy(false, kept) ensures x in kept {
      assert x in multiset(SortBy(false, kept));
    }
    forall x | x in kept ensures x in SortBy(false, kept) {
      assert x in multiset(kept);
    }
  }
}

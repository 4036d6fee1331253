/**
 * The nearest-police route: read the caller's position (0 when absent),
 * then scan every officer once, keeping the first one strictly closer than
 * all before it.
 *
 * The great-circle distance is an input function. It is `None` where the
 * route's arithmetic gives NaN, since every comparison with NaN is false; a
 * `null` coordinate from the database counts as 0 in that arithmetic, so
 * such an officer is measured at latitude 0, longitude 0, which the input
 * function includes. The officers the database returns are an input too.
 *
 * An empty officer list is answered with 204 and no body. As written, the
 * route sends a JSON message with status 204, which the Response
 * constructor refuses, so its `catch` answers 500: `EmptyListReplyAsWritten`
 * models that, and `NearestPolice` the evidently intended 204.
 */
module NearestPoliceRoute {
  import opened Wrappers
  import opened Text
  import opened NearbyRoute

  datatype Officer = Officer(id: string, userId: string, fullName: string, badgeId: string)

  /**
   * The replies: 400, 204, 500, or 200 with the nearest officer and the
   * distance; with no comparable distance the officer is null and the
   * distance, `Infinity`, is serialised as null too.
   */
  datatype NearestReply =
    | InvalidPosition
    | NoOfficers
    | ServerError
    | Nearest(officer: Option<Officer>, distance: Option<real>)

  function Code(r: NearestReply): int
  {
    match r
    case InvalidPosition => 400
    case NoOfficers => 204
    case ServerError => 500
    case Nearest(_, _) => 200
  }

  /**
   * The null body statuses of the Fetch standard: a
   * response with one of these statuses may not carry a body.
   */
  predicate NullBodyStatus(status: int)
  {
    status == 101 || status == 103 || status == 204 || status == 205 || status == 304
  }

  /**
   * `NextResponse.json(body, { status })` inside the route's `try`: the
   * Response constructor throws a TypeError when the status may not carry
   * a body, and the route's `catch` answers 500.
   */
  function JsonReply(status: int, reply: NearestReply): (r: NearestReply)
    ensures NullBodyStatus(status) ==> r == ServerError
    ensures !NullBodyStatus(status) ==> r == reply
  {
    if NullBodyStatus(status) then ServerError else reply
  }

  /** The reply to an empty officer list as the route writes it: a JSON message with status 204. */
  function EmptyListReplyAsWritten(): NearestReply
  {
    JsonReply(204, NoOfficers)
  }

  /** As written, a valid position and no officers is answered with 500, not 204. */
  lemma AsWrittenEmptyListFails()
    ensures EmptyListReplyAsWritten() == ServerError && Code(EmptyListReplyAsWritten()) == 500
  {
  }

  /** `distance < minDistance`, where `None` as a distance is NaN and `None` as a minimum is `Infinity`. */
  predicate Closer(d: Option<real>, minDistance: Option<real>)
  {
    d.Some? && (minDistance.None? || d.value < minDistance.value)
  }

  /**
   * `best` is the first index of a smallest number among `ds[..n]`, or
   * `None` when none of them is a number.
   */
  predicate FirstMinimum(ds: seq<Option<real>>, n: nat, best: Option<nat>)
    requires n <= |ds|
  {
    match best
    case None => forall j :: 0 <= j < n ==> ds[j].None?
    case Some(b) =>
      b < n && ds[b].Some? &&
      (forall j :: 0 <= j < n && ds[j].Some? ==> ds[b].value <= ds[j].value) &&
      (forall j :: 0 <= j < b && ds[j].Some? ==> ds[b].value < ds[j].value)
  }

  /** The loop of the route over the distances: the index of the officer kept, and `minDistance`. */
  method NearestIndex(ds: seq<Option<real>>) returns (best: Option<nat>, minDistance: Option<real>)
    ensures FirstMinimum(ds, |ds|, best)
    ensures best.Some? ==> minDistance == ds[best.value]
    ensures best.None? ==> minDistance.None?
  {
    best := None;
    minDistance := None;
    var i := 0;
    while i < |ds|
      invariant 0 <= i <= |ds|
      invariant FirstMinimum(ds, i, best)
      invariant best.Some? ==> minDistance == ds[best.value]
      invariant best.None? ==> minDistance.None?
    {
      if Closer(ds[i], minDistance) {
        minDistance := ds[i];
        best := Some(i);
      }
      i := i + 1;
    }
  }

  /** There is at most one first minimum. */
  lemma FirstMinimumUnique(ds: seq<Option<real>>, a: Option<nat>, b: Option<nat>)
    requires FirstMinimum(ds, |ds|, a) && FirstMinimum(ds, |ds|, b)
    ensures a == b
  {
    if a.Some? && b.Some? {
      assert ds[a.value].value == ds[b.value].value;
    }
  }

  /** The distance of each officer from the caller. */
  function Distances(lat: real, lng: real, officers: seq<Officer>, distance: (real, real, Officer) -> Option<real>): (ds: seq<Option<real>>)
    ensures |ds| == |officers|
    ensures forall i :: 0 <= i < |officers| ==> ds[i] == distance(lat, lng, officers[i])
  {
    if officers == [] then [] else [distance(lat, lng, officers[0])] + Distances(lat, lng, officers[1..], distance)
  }

  /** The position, read as `parseFloat(searchParams.get(key) || "0")`. */
  function Coordinate(params: seq<Param>, key: ParamKey): Option<real>
  {
    ParseFloat(GetOr(params, key, "0"))
  }

  /** `GET`. */
  method NearestPolice(params: seq<Param>, officers: seq<Officer>, distance: (real, real, Officer) -> Option<real>)
    returns (reply: NearestReply)
    ensures reply == InvalidPosition <==> Coordinate(params, Lat).None? || Coordinate(params, Lng).None?
    ensures reply == NoOfficers <==> Coordinate(params, Lat).Some? && Coordinate(params, Lng).Some? && officers == []
    ensures Code(reply) != 500
    ensures reply.Nearest? ==>
      var ds := Distances(Coordinate(params, Lat).value, Coordinate(params, Lng).value, officers, distance);
      (reply.officer.None? <==> reply.distance.None?) &&
      (reply.officer.None? ==> FirstMinimum(ds, |ds|, None)) &&
      (reply.officer.Some? ==>
         (exists k :: 0 <= k < |officers| && officers[k] == reply.officer.value &&
            FirstMinimum(ds, |ds|, Some(k)) && reply.distance == ds[k]))
  {
    var lat := Coordinate(params, Lat);
    var lng := Coordinate(params, Lng);
    if lat.None? || lng.None? {
      return InvalidPosition;
    }
    if |officers| == 0 {
      return NoOfficers;
    }
    var ds := Distances(lat.value, lng.value, officers, distance);
    var best, minDistance := NearestIndex(ds);
    match best
    case None =>
      return Nearest(None, None);
    case Some(k) =>
      assert FirstMinimum(ds, |ds|, Some(k)) && minDistance == ds[k];
      return Nearest(Some(officers[k]), minDistance);
  }

  /** Without a position the route measures from latitude 0, longitude 0. */
  lemma DefaultPosition()
    ensures Coordinate([], Lat) == Some(0.0) && Coordinate([], Lng) == Some(0.0)
  {
    assert DigitPrefix("0") == "0";
    assert UnsignedPrefixFloat("0") == Some(0.0);
  }
}

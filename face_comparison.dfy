/**
 * The analysis `compare_faces` returns: a similarity score per facial
 * region from the 68 landmark points of each face, the fixed scores used
 * when landmarks cannot be found, the overall match percentage with its
 * conclusion and confidence, the strongest and weakest regions, and the
 * Grad-CAM heat-map normalisation.
 *
 * The landmark predictor, the face matcher and the network are not
 * modelled; what they produce is an input. Square roots are not computed:
 * a per-point distance is any non-negative real that is zero exactly when
 * the two points coincide.
 */
module FaceComparison {
  import opened Wrappers
  import opened StableSort

  /** The facial regions the analysis scores. */
  datatype RegionName = RightEye | LeftEye | Nose | Mouth | Jaw | RightEyebrow | LeftEyebrow

  /** The region's key in `region_matches`. */
  function Key(name: RegionName): string
  {
    match name
    case RightEye => "right_eye"
    case LeftEye => "left_eye"
    case Nose => "nose"
    case Mouth => "mouth"
    case Jaw => "jaw"
    case RightEyebrow => "right_eyebrow"
    case LeftEyebrow => "left_eyebrow"
  }

  /** A facial region: landmark points `start` up to, not including, `end`. */
  datatype Region = Region(name: RegionName, start: nat, end: nat)

  /** `FACIAL_LANDMARKS_REGIONS`, in its declared order. */
  const Regions: seq<Region> := [
    Region(RightEye, 36, 42),
    Region(LeftEye, 42, 48),
    Region(Nose, 27, 36),
    Region(Mouth, 48, 68),
    Region(Jaw, 0, 17),
    Region(RightEyebrow, 17, 22),
    Region(LeftEyebrow, 22, 27)]

  /** The number of landmark points the predictor reports for a face. */
  const LandmarkCount := 68

  predicate InRegion(r: Region, k: int) { r.start <= k < r.end }

  /** The position in the table of the region holding landmark `k`. */
  function RegionOf(k: int): nat
  {
    if k < 17 then 4 else if k < 22 then 5 else if k < 27 then 6 else if k < 36 then 2
    else if k < 42 then 0 else if k < 48 then 1 else 3
  }

  /** The regions are non-empty, within the 68 points, pairwise disjoint, and cover every point. */
  lemma RegionsPartitionLandmarks()
    ensures forall i :: 0 <= i < |Regions| ==> Regions[i].start < Regions[i].end <= LandmarkCount
    ensures forall i, j, k :: 0 <= i < j < |Regions| && InRegion(Regions[i], k) ==> !InRegion(Regions[j], k)
    ensures forall k :: 0 <= k < LandmarkCount ==> RegionOf(k) < |Regions| && InRegion(Regions[RegionOf(k)], k)
  {
  }

  /** A landmark's pixel coordinates. */
  datatype Point = Point(x: int, y: int)

  function SquaredDistance(a: Point, b: Point): (d: int)
    ensures d >= 0
    ensures d == 0 <==> a == b
  {
    (a.x - b.x) * (a.x - b.x) + (a.y - b.y) * (a.y - b.y)
  }

  /** `d` may be `np.sqrt(sq)`: non-negative, and zero exactly when `sq` is. */
  predicate IsRoot(d: real, sq: int) { d >= 0.0 && (d == 0.0 <==> sq == 0) }

  /** `dist[i]` is the distance between the i-th landmarks of the two faces, for all 68 of them. */
  predicate Distances(c1: seq<Point>, c2: seq<Point>, dist: seq<real>)
  {
    |c1| == LandmarkCount && |c2| == LandmarkCount && |dist| == LandmarkCount &&
    forall i :: 0 <= i < LandmarkCount ==> IsRoot(dist[i], SquaredDistance(c1[i], c2[i]))
  }

  function Sum(s: seq<real>): real
  {
    if s == [] then 0.0 else s[0] + Sum(s[1..])
  }

  /** `np.mean`. */
  function Mean(s: seq<real>): real
    requires |s| > 0
  {
    Sum(s) / |s| as real
  }

  /** `max(lo, min(hi, x))`. */
  function Clamp(x: real, lo: real, hi: real): (r: real)
    requires lo <= hi
    ensures lo <= r <= hi
    ensures lo <= x <= hi ==> r == x
  {
    if x < lo then lo else if x > hi then hi else x
  }

  /** Python's `round(x, 2)`, taken as rounding half up to the nearest hundredth. */
  function Round2(x: real): (r: real)
    ensures x - 0.005 < r <= x + 0.005
    ensures (r * 100.0).Floor as real == r * 100.0
  {
    (x * 100.0 + 0.5).Floor as real / 100.0
  }

  /** A region's score from the mean distance of its points: 10 pixels or more scores 0, none scores 100. */
  function Similarity(meanDistance: real): real
  {
    Round2(Clamp(100.0 - (meanDistance / 10.0) * 100.0, 0.0, 100.0))
  }

  /** The score of one region from its points' distances. */
  function RegionScore(dist: seq<real>): real
    requires |dist| > 0
  {
    Similarity(Mean(dist))
  }

  lemma Round2Bounds(x: real)
    requires 0.0 <= x <= 100.0
    ensures 0.0 <= Round2(x) <= 100.0
  {
  }

  /** Every region score is a percentage. */
  lemma SimilarityIsPercentage(meanDistance: real)
    ensures 0.0 <= Similarity(meanDistance) <= 100.0
  {
    Round2Bounds(Clamp(100.0 - (meanDistance / 10.0) * 100.0, 0.0, 100.0));
  }

  /** A closer region never scores lower. */
  lemma SimilarityMonotone(m1: real, m2: real)
    requires m1 <= m2
    ensures Similarity(m2) <= Similarity(m1)
  {
    var a := Clamp(100.0 - (m1 / 10.0) * 100.0, 0.0, 100.0);
    var b := Clamp(100.0 - (m2 / 10.0) * 100.0, 0.0, 100.0);
    assert b <= a;
    assert (b * 100.0 + 0.5).Floor <= (a * 100.0 + 0.5).Floor;
  }

  /** A mean distance of ten pixels or more scores 0. */
  lemma FarRegionScoresZero(meanDistance: real)
    requires meanDistance >= 10.0
    ensures Similarity(meanDistance) == 0.0
  {
    assert (0.0 * 100.0 + 0.5).Floor == 0;
  }

  lemma {:induction false} SumOfZeros(s: seq<real>)
    requires forall i :: 0 <= i < |s| ==> s[i] == 0.0
    ensures Sum(s) == 0.0
  {
    if s != [] {
      SumOfZeros(s[1..]);
    }
  }

  /** Identical landmarks give every region the score 100. */
  lemma IdenticalRegionScoresHundred(c: seq<Point>, dist: seq<real>, r: Region)
    requires Distances(c, c, dist) && r in Regions
    ensures r.start < r.end <= |dist| && RegionScore(dist[r.start..r.end]) == 100.0
  {
    RegionsPartitionLandmarks();
    var part := dist[r.start..r.end];
    forall i | 0 <= i < |part| ensures part[i] == 0.0 {
      assert IsRoot(dist[r.start + i], SquaredDistance(c[r.start + i], c[r.start + i]));
    }
    SumOfZeros(part);
    assert (100.0 * 100.0 + 0.5).Floor == 10000;
  }

  /** One entry per region, in table order, scored from that region's slice of the distances. */
  predicate ScoredFrom(dist: seq<real>, matches: seq<Keyed<RegionName>>)
  {
    |matches| == |Regions| &&
    forall i :: 0 <= i < |Regions| ==>
      Regions[i].start < Regions[i].end <= |dist| &&
      matches[i] == Keyed(Regions[i].name, RegionScore(dist[Regions[i].start..Regions[i].end]))
  }

  /**
   * The loop that fills `region_matches`: one entry per region, in table
   * order, scored from that region's slice of the distances.
   */
  method ScoreRegions(dist: seq<real>) returns (matches: seq<Keyed<RegionName>>)
    requires |dist| == LandmarkCount
    ensures ScoredFrom(dist, matches)
  {
    RegionsPartitionLandmarks();
    matches := [];
    var i := 0;
    while i < |Regions|
      invariant 0 <= i <= |Regions| && |matches| == i
      invariant forall j :: 0 <= j < i ==> matches[j] == Keyed(Regions[j].name, RegionScore(dist[Regions[j].start..Regions[j].end]))
    {
      var r := Regions[i];
      matches := matches + [Keyed(r.name, RegionScore(dist[r.start..r.end]))];
      i := i + 1;
    }
  }

  /** The score reported for each region when landmark detection fails. */
  function FallbackScore(name: RegionName): real
  {
    match name
    case RightEye => 85.2
    case LeftEye => 87.6
    case Nose => 76.3
    case Mouth => 82.1
    case Jaw => 74.9
    case RightEyebrow => 79.8
    case LeftEyebrow => 81.3
  }

  /** Every region in table order, each with its fallback score. */
  predicate IsFallback(matches: seq<Keyed<RegionName>>)
  {
    |matches| == |Regions| &&
    forall i :: 0 <= i < |Regions| ==> matches[i] == Keyed(Regions[i].name, FallbackScore(Regions[i].name))
  }

  /** Region names and scores in [0, 100]: what every `region_matches` map satisfies. */
  predicate WellFormedMatches(matches: seq<Keyed<RegionName>>)
  {
    |matches| == |Regions| &&
    forall i :: 0 <= i < |Regions| ==> matches[i].item == Regions[i].name && 0.0 <= matches[i].key <= 100.0
  }

  /** `region_matches`: scored from the landmarks when both faces had them, else the fallback map. */
  method RegionMatches(landmarks: Option<seq<real>>) returns (matches: seq<Keyed<RegionName>>)
    requires landmarks.Some? ==> |landmarks.value| == LandmarkCount
    ensures WellFormedMatches(matches)
    ensures landmarks.None? ==> IsFallback(matches)
    ensures landmarks.Some? ==> ScoredFrom(landmarks.value, matches)
  {
    match landmarks
    case None =>
      matches := [Keyed(RightEye, 85.2), Keyed(LeftEye, 87.6), Keyed(Nose, 76.3), Keyed(Mouth, 82.1),
                  Keyed(Jaw, 74.9), Keyed(RightEyebrow, 79.8), Keyed(LeftEyebrow, 81.3)];
    case Some(dist) =>
      matches := ScoreRegions(dist);
      RegionsPartitionLandmarks();
      forall i | 0 <= i < |Regions| ensures 0.0 <= matches[i].key <= 100.0 {
        SimilarityIsPercentage(Mean(dist[Regions[i].start..Regions[i].end]));
      }
  }

  /** `round((1 - distance) * 100, 2)` from the matcher's distance. */
  function MatchPercentage(distance: real): real
  {
    Round2((1.0 - distance) * 100.0)
  }

  function Conclusion(matchPercentage: real): string
  {
    if matchPercentage > 70.0 then "Potential match" else "Not a likely match"
  }

  function Confidence(matchPercentage: real): string
  {
    if matchPercentage > 85.0 then "High" else if matchPercentage > 70.0 then "Medium" else "Low"
  }

  /** The conclusion is positive exactly when the confidence is not Low, and High implies positive. */
  lemma ConclusionAgreesWithConfidence(p: real)
    ensures Conclusion(p) == "Potential match" <==> Confidence(p) != "Low"
    ensures Confidence(p) == "High" ==> p > 85.0 && Conclusion(p) == "Potential match"
    ensures Confidence(p) == "Medium" <==> 70.0 < p <= 85.0
  {
  }

  /** `analysis_summary`. */
  datatype Summary = Summary(conclusion: string, confidence: string,
                             keyMatching: seq<Keyed<RegionName>>, keyDiffering: seq<Keyed<RegionName>>)

  function Summarise(matchPercentage: real, matches: seq<Keyed<RegionName>>): Summary
  {
    Summary(Conclusion(matchPercentage), Confidence(matchPercentage),
            Take(SortBy(true, matches), 3), Take(SortBy(false, matches), 3))
  }

  /**
   * The key matching features are the first three regions by descending
   * score: each scores at least as high as every region after them, the
   * order is a rearrangement of all regions, and regions with equal scores
   * keep their table order.
   */
  lemma KeyMatchingFeatures(p: real, matches: seq<Keyed<RegionName>>, v: real)
    requires |matches| >= 3
    ensures |SortBy(true, matches)| == |matches|
    ensures Summarise(p, matches).keyMatching == SortBy(true, matches)[..3]
    ensures forall i, j :: 0 <= i < 3 <= j < |matches| ==> SortBy(true, matches)[i].key >= SortBy(true, matches)[j].key
    ensures multiset(SortBy(true, matches)) == multiset(matches)
    ensures WithKey(v, SortBy(true, matches)) == WithKey(v, matches)
  {
    TakeSortedSplits(true, matches, 3);
    SortByStable(true, v, matches);
  }

  /** The key differing features: the first three by ascending score, likewise. */
  lemma KeyDifferingFeatures(p: real, matches: seq<Keyed<RegionName>>, v: real)
    requires |matches| >= 3
    ensures |SortBy(false, matches)| == |matches|
    ensures Summarise(p, matches).keyDiffering == SortBy(false, matches)[..3]
    ensures forall i, j :: 0 <= i < 3 <= j < |matches| ==> SortBy(false, matches)[i].key <= SortBy(false, matches)[j].key
    ensures multiset(SortBy(false, matches)) == multiset(matches)
    ensures WithKey(v, SortBy(false, matches)) == WithKey(v, matches)
  {
    TakeSortedSplits(false, matches, 3);
    SortByStable(false, v, matches);
  }

  /** What the matcher call did: returned a distance, or raised. */
  datatype MatcherCall = Distance(distance: real) | MatcherError(message: string)

  /** The reply of `compare_faces`; the raw landmark coordinates are left out. */
  datatype CompareReply =
    | Rejected(status: int, error: string)
    | Compared(matchPercentage: real, regionMatches: seq<Keyed<RegionName>>, summary: Summary,
               heatmap1: seq<real>, heatmap2: seq<real>)

  /**
   * `compare_faces` after the images are fetched: the URL check, the
   * download failure, the landmark scores or their fallback, and the
   * matcher failure, in that order. `raw1` and `raw2` are the Grad-CAM
   * maps of the two images before normalisation, flattened.
   */
  method CompareFaces(image1Url: string, image2Url: string, downloadError: Option<string>,
                      landmarks: Option<seq<real>>, call: MatcherCall, raw1: seq<real>, raw2: seq<real>)
    returns (reply: CompareReply)
    requires landmarks.Some? ==> |landmarks.value| == LandmarkCount
    requires |raw1| > 0 && |raw2| > 0
    ensures image1Url == "" || image2Url == "" ==> reply == Rejected(400, "Both image URLs are required")
    ensures reply.Compared? <==> image1Url != "" && image2Url != "" && downloadError.None? && call.Distance?
    ensures reply.Compared? ==> reply.matchPercentage == MatchPercentage(call.distance)
    ensures reply.Compared? ==> WellFormedMatches(reply.regionMatches)
    ensures reply.Compared? ==> reply.summary == Summarise(reply.matchPercentage, reply.regionMatches)
    ensures reply.Compared? && landmarks.None? ==> IsFallback(reply.regionMatches)
    ensures reply.Compared? && landmarks.Some? ==> ScoredFrom(landmarks.value, reply.regionMatches)
    ensures reply.Compared? ==> reply.heatmap1 == Normalise(raw1) && reply.heatmap2 == Normalise(raw2)
    ensures reply.Rejected? ==> reply.status == 400
  {
    if image1Url == "" || image2Url == "" {
      return Rejected(400, "Both image URLs are required");
    }
    if downloadError.Some? {
      return Rejected(400, "Error downloading images: " + downloadError.value);
    }
    var matches := RegionMatches(landmarks);
    match call
    case MatcherError(message) =>
      reply := Rejected(400, "DeepFace error: " + message);
    case Distance(d) =>
      var p := MatchPercentage(d);
      reply := Compared(p, matches, Summarise(p, matches), Normalise(raw1), Normalise(raw2));
  }

  /** `np.max`. */
  function MaxOf(h: seq<real>): (m: real)
    requires |h| > 0
    ensures forall i :: 0 <= i < |h| ==> h[i] <= m
    ensures exists i :: 0 <= i < |h| && h[i] == m
  {
    if |h| == 1 then h[0]
    else
      var m := MaxOf(h[1..]);
      assert forall i :: 1 <= i < |h| ==> h[i] == h[1..][i - 1];
      if h[0] >= m then h[0] else m
  }

  /** `np.maximum(h, 0)`. */
  function Rectify(h: seq<real>): (r: seq<real>)
    ensures |r| == |h| && forall i :: 0 <= i < |h| ==> r[i] >= 0.0 && r[i] >= h[i] && (h[i] > 0.0 ==> r[i] == h[i])
    ensures forall i :: 0 <= i < |h| ==> r[i] == if h[i] > 0.0 then h[i] else 0.0
  {
    seq(|h|, i requires 0 <= i < |h| => if h[i] > 0.0 then h[i] else 0.0)
  }

  /** Floating-point division of a heat-map value; `None` is the NaN that 0 / 0 gives. */
  function Divide(x: real, m: real): Option<real>
  {
    if m == 0.0 then None else Some(x / m)
  }

  /**
   * The normalisation at the end of `generate_heatmap` as written: it
   * checks the maximum before rectifying, so a map whose maximum is 0
   * keeps its negative values, and a map with no positive value is
   * rectified to zeros and then divided by its new maximum, 0.
   */
  function NormaliseAsWritten(h: seq<real>): (r: seq<Option<real>>)
    requires |h| > 0
    ensures |r| == |h|
  {
    if MaxOf(h) != 0.0 then
      var rect := Rectify(h);
      var m := MaxOf(rect);
      seq(|rect|, i requires 0 <= i < |rect| => Divide(rect[i], m))
    else
      seq(|h|, i requires 0 <= i < |h| => Some(h[i]))
  }

  /** A map whose largest value is 0 keeps its negative values. */
  lemma NormaliseAsWrittenKeepsNegatives()
    ensures NormaliseAsWritten([0.0, -1.0]) == [Some(0.0), Some(-1.0)]
  {
    assert MaxOf([0.0, -1.0]) == 0.0 by {
      assert [0.0, -1.0][1..] == [-1.0];
    }
  }

  /** A map with no positive value ends as 0 / 0. */
  lemma NormaliseAsWrittenDividesByZero()
    ensures NormaliseAsWritten([-1.0]) == [None]
  {
    var rect := Rectify([-1.0]);
    assert rect == [0.0];
  }

  /**
   * The normalisation the guard is evidently meant to give: rectify, then
   * divide by the maximum only when it is positive.
   */
  function Normalise(h: seq<real>): (r: seq<real>)
    requires |h| > 0
    ensures |r| == |h|
  {
    var rect := Rectify(h);
    var m := MaxOf(rect);
    if m > 0.0 then seq(|rect|, i requires 0 <= i < |rect| => rect[i] / m) else rect
  }

  lemma QuotientAtMostOne(x: real, m: real)
    requires 0.0 <= x <= m && m > 0.0
    ensures 0.0 <= x / m <= 1.0
  {
  }

  /** Every normalised value lies in [0, 1]. */
  lemma NormaliseInUnitRange(h: seq<real>)
    requires |h| > 0
    ensures forall i :: 0 <= i < |h| ==> 0.0 <= Normalise(h)[i] <= 1.0
  {
    var rect := Rectify(h);
    var m := MaxOf(rect);
    var r := Normalise(h);
    forall i | 0 <= i < |h| ensures 0.0 <= r[i] <= 1.0 {
      assert 0.0 <= rect[i] <= m;
      if m > 0.0 {
        assert r[i] == rect[i] / m;
        QuotientAtMostOne(rect[i], m);
      } else {
        assert r[i] == rect[i];
      }
    }
  }

  /** When some value is positive, the largest one becomes exactly 1. */
  lemma NormaliseReachesOne(h: seq<real>)
    requires |h| > 0 && MaxOf(h) > 0.0
    ensures exists i :: 0 <= i < |h| && Normalise(h)[i] == 1.0
  {
    var rect := Rectify(h);
    var m := MaxOf(rect);
    var j :| 0 <= j < |h| && h[j] == MaxOf(h);
    assert rect[j] == h[j] && m >= rect[j] > 0.0;
    var k :| 0 <= k < |rect| && rect[k] == m;
    assert Normalise(h)[k] == m / m;
    SelfQuotient(m);
  }

  lemma SelfQuotient(m: real)
    requires m > 0.0
    ensures m / m == 1.0
  {
  }

  /** Where the written guard works (some value is positive), the two normalisations agree. */
  lemma NormaliseAgreesWhenPositive(h: seq<real>)
    requires |h| > 0 && MaxOf(h) > 0.0
    ensures forall i :: 0 <= i < |h| ==> NormaliseAsWritten(h)[i] == Some(Normalise(h)[i])
  {
    var rect := Rectify(h);
    var k :| 0 <= k < |h| && h[k] == MaxOf(h);
    assert rect[k] == h[k] && rect[k] <= MaxOf(rect);
  }
}

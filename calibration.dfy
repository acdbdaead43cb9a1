/** The calibration bookkeeping: clicks per calibration dot, and the rule
    that calibration is complete once every dot has enough clicks. */
module Calibration {

  /** CLICKS_PER_POINT in the script. */
  const CLICKS_PER_POINT: int := 5

  /** calibrationPoints: clicks recorded per calibration dot id. */
  type Clicks = map<string, int>

  /** The dots that have been clicked enough. */
  function Completed(points: Clicks): (done: set<string>)
    ensures done <= points.Keys
  {
    set k | k in points && points[k] >= CLICKS_PER_POINT
  }

  predicate AllComplete(points: Clicks) {
    forall k :: k in points ==> points[k] >= CLICKS_PER_POINT
  }

  /** Counting completed dots decides completion: the count reaches the
      number of dots exactly when every dot is complete. */
  lemma CountDecidesCompletion(points: Clicks)
    ensures |Completed(points)| == |points.Keys| <==> AllComplete(points)
  {
    var done := Completed(points);
    if !AllComplete(points) {
      var k :| k in points && points[k] < CLICKS_PER_POINT;
      assert k !in done;
      assert done <= points.Keys - {k};
      assert |points.Keys - {k}| == |points.Keys| - 1;
      SubsetCard(done, points.Keys - {k});
    } else {
      assert done == points.Keys;
    }
  }

  lemma {:induction false} SubsetCard<T>(a: set<T>, b: set<T>)
    requires a <= b
    ensures |a| <= |b|
    decreases b
  {
    if a != {} {
      var x :| x in a;
      SubsetCard(a - {x}, b - {x});
    }
  }

  /** The counting loop of checkCalibrationStatus over the keys of
      calibrationPoints. */
  method CountCompleted(points: Clicks) returns (completed: nat)
    ensures completed == |Completed(points)|
    ensures completed <= |points.Keys|
  {
    completed := 0;
    var remaining := points.Keys;
    while remaining != {}
      invariant remaining <= points.Keys
      invariant completed == |set k | k in points.Keys - remaining && points[k] >= CLICKS_PER_POINT|
      decreases remaining
    {
      var key :| key in remaining;
      ghost var before := set k | k in points.Keys - remaining && points[k] >= CLICKS_PER_POINT;
      remaining := remaining - {key};
      ghost var after := set k | k in points.Keys - remaining && points[k] >= CLICKS_PER_POINT;
      if points[key] >= CLICKS_PER_POINT {
        assert after == before + {key};
        completed := completed + 1;
      } else {
        assert after == before;
      }
    }
    assert points.Keys - remaining == points.Keys;
    SubsetCard(Completed(points), points.Keys);
  }
}

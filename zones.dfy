/** The per-zone dwell tracker and the trigger rule of checkConfusionZones:
    a rectangle hit test on the stabilized gaze, a two-state machine per zone
    counting entries and accumulating dwell seconds, and the rule that asks
    for a smart response. */
module Zones {
  import opened Wrappers
  import opened Gaze

  /** The four keys of zoneMetrics, in the script's iteration order. */
  datatype ZoneId = Shipping | Payment | Items | Summary

  const ZONE_ORDER: seq<ZoneId> := [Shipping, Payment, Items, Summary]

  /** The position of a zone in the iteration order: every zone has one. */
  function IndexOf(z: ZoneId): (i: nat)
    ensures i < |ZONE_ORDER| && ZONE_ORDER[i] == z
  {
    match z
    case Shipping => 0
    case Payment => 1
    case Items => 2
    case Summary => 3
  }

  /** The iteration order lists every zone exactly once. */
  lemma ZonesInOrder()
    ensures forall z :: z in ZONE_ORDER
    ensures forall i, j :: 0 <= i < j < |ZONE_ORDER| ==> ZONE_ORDER[i] != ZONE_ORDER[j]
  {
    forall z
      ensures z in ZONE_ORDER
    {
      var i := IndexOf(z);
    }
  }

  /** A strength above this counts toward the saccade distance. */
  const SACCADE_THRESHOLD: real := 15.0
  /** Dwell seconds a zone must exceed (strictly) to trigger. */
  const DWELL_THRESHOLD: real := 5.0
  /** Revisits a zone must exceed (strictly) to trigger on dwell. */
  const REVISIT_THRESHOLD: nat := 3
  /** Accumulated saccade distance that makes revisits unnecessary. */
  const SACCADE_DISTANCE_THRESHOLD: real := 6000.0

  /** A bounding client rectangle of a zone's page element. */
  datatype Rect = Rect(left: real, top: real, right: real, bottom: real)

  /** The page layout at one sample: the rectangle of every zone whose
      element is present; a zone missing from the map has no element. */
  type Layout = map<ZoneId, Rect>

  function Element(layout: Layout, z: ZoneId): Option<Rect> {
    if z in layout then Some(layout[z]) else None
  }

  /** The closed-rectangle hit test (all four comparisons are inclusive). */
  predicate Hit(p: Point, r: Rect): (b: bool)
    ensures b ==> r.left <= r.right && r.top <= r.bottom
  {
    r.left <= p.x <= r.right && r.top <= p.y <= r.bottom
  }

  /** True when the zone's element exists and the gaze is on it. */
  predicate Looking(rect: Option<Rect>, p: Point) {
    rect.Some? && Hit(p, rect.value)
  }

  /** One record of zoneMetrics; `dwellTime` is in seconds, `lastEntry` in
      milliseconds. */
  datatype ZoneState = ZoneState(isInside: bool, dwellTime: real, revisits: nat, lastEntry: Option<int>)

  const INITIAL_ZONE := ZoneState(false, 0.0, 0, None)

  /** zoneMetrics as the script declares it. */
  const INITIAL_ZONES: map<ZoneId, ZoneState> :=
    map[Shipping := INITIAL_ZONE, Payment := INITIAL_ZONE, Items := INITIAL_ZONE, Summary := INITIAL_ZONE]

  /** Every zone has a record, and a zone that is inside has an entry time. */
  predicate ZonesValid(zones: map<ZoneId, ZoneState>) {
    && (forall z: ZoneId :: z in zones)
    && (forall z :: z in zones && zones[z].isInside ==> zones[z].lastEntry.Some?)
  }

  lemma InitialZonesCover()
    ensures forall z: ZoneId :: z in INITIAL_ZONES && INITIAL_ZONES[z] == INITIAL_ZONE
    ensures ZonesValid(INITIAL_ZONES)
  {
    forall z: ZoneId
      ensures z in INITIAL_ZONES && INITIAL_ZONES[z] == INITIAL_ZONE
    {
      match z
      case Shipping =>
      case Payment =>
      case Items =>
      case Summary =>
    }
  }

  /** A null `lastEntry` reads as 0 in the script's subtraction. */
  function EntryTime(s: ZoneState): int {
    if s.lastEntry.Some? then s.lastEntry.value else 0
  }

  /** One zone's update for one stabilized sample at time `now`. */
  function StepZone(s: ZoneState, rect: Option<Rect>, p: Point, now: int): (r: ZoneState)
    ensures rect.None? ==> r == s
    ensures rect.Some? ==> r.isInside == Hit(p, rect.value)
    ensures r.revisits == s.revisits + (if Looking(rect, p) && !s.isInside then 1 else 0)
    ensures Looking(rect, p) ==> r.lastEntry == Some(now)
    ensures !Looking(rect, p) ==> r.lastEntry == s.lastEntry && r.dwellTime == s.dwellTime
    ensures r.dwellTime != s.dwellTime ==> Looking(rect, p) && s.isInside
    ensures Looking(rect, p) && s.isInside ==> r.dwellTime == s.dwellTime + (now - EntryTime(s)) as real / 1000.0
  {
    match rect
    case None => s
    case Some(box) =>
      if Hit(p, box) then
        if !s.isInside then
          s.(isInside := true, revisits := s.revisits + 1, lastEntry := Some(now))
        else
          s.(dwellTime := s.dwellTime + (now - EntryTime(s)) as real / 1000.0, lastEntry := Some(now))
      else
        s.(isInside := false)
  }

  /** The running saccade-distance accumulator (line 142). */
  function Accumulate(total: real, strength: real): (t: real)
    ensures t >= total
    ensures t != total ==> strength > SACCADE_THRESHOLD && t == total + strength
    ensures strength > SACCADE_THRESHOLD ==> t == total + strength
  {
    if strength > SACCADE_THRESHOLD then total + strength else total
  }

  /** The trigger rule on a zone that is being looked at. */
  predicate Fires(s: ZoneState, total: real) {
    s.dwellTime > DWELL_THRESHOLD && (s.revisits > REVISIT_THRESHOLD || total > SACCADE_DISTANCE_THRESHOLD)
  }

  /** More confusion never stops a zone from firing: a record with at least
      the dwell and the revisits of a firing one fires too, at any saccade
      distance at least as large. */
  lemma FiresMonotone(s: ZoneState, t: ZoneState, total: real, total': real)
    requires Fires(s, total)
    requires t.dwellTime >= s.dwellTime && t.revisits >= s.revisits && total' >= total
    ensures Fires(t, total')
  {
  }

  /** The edges of an element belong to it: each corner of a non-empty
      rectangle is a hit. */
  lemma CornersHit(r: Rect)
    requires r.left <= r.right && r.top <= r.bottom
    ensures Hit(Point(r.left, r.top), r) && Hit(Point(r.right, r.top), r)
    ensures Hit(Point(r.left, r.bottom), r) && Hit(Point(r.right, r.bottom), r)
  {
  }

  /** Every zone record after one sample. */
  function StepAll(zones: map<ZoneId, ZoneState>, layout: Layout, p: Point, now: int): (r: map<ZoneId, ZoneState>)
    ensures r.Keys == zones.Keys
  {
    map z | z in zones :: StepZone(zones[z], Element(layout, z), p, now)
  }

  /** A zone whose element is missing keeps its record. */
  lemma StepAllSkipsMissing(zones: map<ZoneId, ZoneState>, layout: Layout, p: Point, now: int, z: ZoneId)
    requires z in zones && z !in layout
    ensures StepAll(zones, layout, p, now)[z] == zones[z]
  {
  }

  /** The zones of `order`, in order, for which the sample asks for a
      response: the zone has a record, the gaze is on its element and,
      after the zone's update, the trigger rule holds. */
  function TriggeredIn(order: seq<ZoneId>, zones: map<ZoneId, ZoneState>, layout: Layout, p: Point, total: real): seq<ZoneId>
  {
    if order == [] then []
    else
      var z := order[|order| - 1];
      var rest := TriggeredIn(order[..|order| - 1], zones, layout, p, total);
      if z in zones && Looking(Element(layout, z), p) && Fires(zones[z], total) then rest + [z] else rest
  }

  /** A zone is triggered exactly when it is in the order, has a record, its
      element is on the page under the gaze and its rule holds; the result
      is no longer than the order. */
  lemma {:induction false} TriggeredInMembers(order: seq<ZoneId>, zones: map<ZoneId, ZoneState>, layout: Layout, p: Point, total: real)
    ensures |TriggeredIn(order, zones, layout, p, total)| <= |order|
    ensures forall z :: z in TriggeredIn(order, zones, layout, p, total) <==>
      z in order && z in zones && z in layout && Hit(p, layout[z]) && Fires(zones[z], total)
    decreases |order|
  {
    if order != [] {
      var o := order[..|order| - 1];
      TriggeredInMembers(o, zones, layout, p, total);
      assert order == o + [order[|order| - 1]];
    }
  }

  // ---------------------------------------------------------------------
  // Properties of the zone state machine
  // ---------------------------------------------------------------------

  /** The trigger rule is strict: a zone with exactly five seconds of dwell
      never fires, whatever its revisits and the saccade distance. */
  lemma DwellIsStrict(s: ZoneState, total: real)
    requires s.dwellTime <= DWELL_THRESHOLD
    ensures !Fires(s, total)
  {
  }

  /** Just above the dwell threshold, four revisits are enough. */
  lemma FiresJustAboveFive(entered: int)
    ensures Fires(ZoneState(true, 5.01, 4, Some(entered)), 0.0)
    ensures !Fires(ZoneState(true, 5.0, 4, Some(entered)), 6001.0)
  {
  }

  /** With timestamps that never go back, one update never lowers a zone's
      dwell time or its revisit count. */
  lemma StepMonotone(s: ZoneState, rect: Option<Rect>, p: Point, now: int)
    requires s.lastEntry.Some? ==> s.lastEntry.value <= now
    requires s.isInside ==> s.lastEntry.Some?
    ensures StepZone(s, rect, p, now).dwellTime >= s.dwellTime
    ensures StepZone(s, rect, p, now).revisits >= s.revisits
  {
  }

  /** One observation of one zone: its element (if present), the stabilized
      gaze and the time. */
  datatype Observation = Observation(rect: Option<Rect>, p: Point, now: int)

  /** A zone's record after a series of observations, oldest first. */
  function Run(s: ZoneState, obs: seq<Observation>): ZoneState
    decreases |obs|
  {
    if obs == [] then s
    else Run(StepZone(s, obs[0].rect, obs[0].p, obs[0].now), obs[1..])
  }

  /** The number of entries in a series: observations where the gaze is on
      the element after it was off (or at the start, if `inside` is false).
      An observation without the element neither enters nor leaves. */
  function Entries(inside: bool, obs: seq<Observation>): nat
    decreases |obs|
  {
    if obs == [] then 0
    else
      var o := obs[0];
      if o.rect.None? then Entries(inside, obs[1..])
      else
        var looking := Hit(o.p, o.rect.value);
        (if looking && !inside then 1 else 0) + Entries(looking, obs[1..])
  }

  predicate Ordered(s: ZoneState, obs: seq<Observation>) {
    && (s.lastEntry.Some? && obs != [] ==> s.lastEntry.value <= obs[0].now)
    && forall i, j :: 0 <= i < j < |obs| ==> obs[i].now <= obs[j].now
  }

  /** Revisits count entries, regardless of how long each visit lasted. */
  lemma {:induction false} RevisitsCountEntries(s: ZoneState, obs: seq<Observation>)
    ensures Run(s, obs).revisits == s.revisits + Entries(s.isInside, obs)
    decreases |obs|
  {
    if obs != [] {
      var o := obs[0];
      RevisitsCountEntries(StepZone(s, o.rect, o.p, o.now), obs[1..]);
    }
  }

  /** Over a run with non-decreasing timestamps, dwell time and revisits
      never decrease. */
  lemma {:induction false} RunMonotone(s: ZoneState, obs: seq<Observation>)
    requires s.isInside ==> s.lastEntry.Some?
    requires Ordered(s, obs)
    ensures Run(s, obs).dwellTime >= s.dwellTime
    ensures Run(s, obs).revisits >= s.revisits
    decreases |obs|
  {
    if obs != [] {
      var o := obs[0];
      var s' := StepZone(s, o.rect, o.p, o.now);
      StepMonotone(s, o.rect, o.p, o.now);
      assert Ordered(s', obs[1..]) by {
        if s'.lastEntry.Some? && |obs| > 1 {
          assert s'.lastEntry == s.lastEntry || s'.lastEntry == Some(o.now);
          assert obs[0].now <= obs[1].now;
        }
      }
      RunMonotone(s', obs[1..]);
    }
  }

  /** A zone whose element is missing for a whole run is left untouched. */
  lemma {:induction false} MissingElementUntouched(s: ZoneState, obs: seq<Observation>)
    requires forall i :: 0 <= i < |obs| ==> obs[i].rect.None?
    ensures Run(s, obs) == s
  {
    if obs != [] {
      MissingElementUntouched(s, obs[1..]);
    }
  }

  /** Staying on a zone: a run whose every observation hits the zone,
      starting from outside, enters once and accrues, as dwell, exactly the
      seconds between the first and the last observation. */
  lemma ContinuousVisit(s: ZoneState, obs: seq<Observation>)
    requires !s.isInside && obs != []
    requires forall i :: 0 <= i < |obs| ==> Looking(obs[i].rect, obs[i].p)
    ensures Run(s, obs).revisits == s.revisits + 1
    ensures Run(s, obs).isInside
    ensures Run(s, obs).dwellTime
            == s.dwellTime + (obs[|obs| - 1].now - obs[0].now) as real / 1000.0
  {
    var s' := StepZone(s, obs[0].rect, obs[0].p, obs[0].now);
    StayInside(s', obs[1..], obs[0].now);
    if |obs| > 1 {
      assert obs[1..][|obs| - 2] == obs[|obs| - 1];
    }
  }

  lemma {:induction false} StayInside(s: ZoneState, obs: seq<Observation>, entered: int)
    requires s.isInside && s.lastEntry == Some(entered)
    requires forall i :: 0 <= i < |obs| ==> Looking(obs[i].rect, obs[i].p)
    ensures Run(s, obs).revisits == s.revisits
    ensures Run(s, obs).isInside
    ensures Run(s, obs).dwellTime
            == s.dwellTime + ((if obs == [] then entered else obs[|obs| - 1].now) - entered) as real / 1000.0
    decreases |obs|
  {
    if obs != [] {
      var o := obs[0];
      var s' := StepZone(s, o.rect, o.p, o.now);
      assert s'.dwellTime == s.dwellTime + (o.now - entered) as real / 1000.0;
      StayInside(s', obs[1..], o.now);
      var last := if |obs| == 1 then o.now else obs[|obs| - 1].now;
      if |obs| > 1 {
        assert obs[1..][|obs| - 2] == obs[|obs| - 1];
      }
      assert (o.now - entered) as real / 1000.0 + (last - o.now) as real / 1000.0
          == (last - entered) as real / 1000.0;
    }
  }
}

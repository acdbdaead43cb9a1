/** The checkout page's confusion detector as one object: every module-level
    variable of the script is a field, and every function that updates them
    is a method whose postcondition gives the new state in terms of the old
    one through the specification functions of Gaze, Zones, Intervention
    and Calibration. */
module Guardian {
  import opened Wrappers
  import opened Gaze
  import opened Zones
  import opened Intervention
  import opened Calibration

  class ClarityGuardian {
    var isCalibrated: bool
    var isPaused: bool
    var calibrationPoints: Clicks

    var lastRawGaze: Point
    var highPassGaze: Point
    var gazeBufferX: seq<real>
    var gazeBufferY: seq<real>
    /** Every raw sample accepted so far, per axis. */
    ghost var historyX: seq<real>
    ghost var historyY: seq<real>

    var totalSaccadeDistance: real
    var interventionStartTime: Option<int>
    var dismissedPopups: set<ZoneId>
    var chatEscalationDismissed: bool
    var zoneMetrics: map<ZoneId, ZoneState>

    /** The page effects of the detector. */
    var highlighted: set<ZoneId>
    var popups: set<ZoneId>
    var chatOpen: bool

    function FilterMemory(): FilterState
      reads this`lastRawGaze, this`highPassGaze
    {
      FilterState(lastRawGaze, highPassGaze)
    }

    function Snapshot(): Response
      reads this`interventionStartTime, this`dismissedPopups, this`highlighted,
            this`popups, this`chatOpen, this`chatEscalationDismissed
    {
      Response(interventionStartTime, dismissedPopups, highlighted, popups, chatOpen, chatEscalationDismissed)
    }

    /** The object invariant: the buffers hold the most recent samples of
        the history, every zone has a record, a zone that is inside has an
        entry time, the saccade distance is not negative,
        and the response state is consistent. */
    ghost predicate Valid()
      reads this
    {
      && |gazeBufferX| == |gazeBufferY|
      && gazeBufferX == Recent(historyX)
      && gazeBufferY == Recent(historyY)
      && ZonesValid(zoneMetrics)
      && totalSaccadeDistance >= 0.0
      && Intervention.Valid(Snapshot())
    }

    /** The script's initial global state. */
    constructor ()
      ensures Valid()
      ensures !isCalibrated && !isPaused && calibrationPoints == map[]
      ensures FilterMemory() == INITIAL_FILTER
      ensures historyX == [] && historyY == []
      ensures totalSaccadeDistance == 0.0
      ensures zoneMetrics == INITIAL_ZONES
      ensures interventionStartTime == None && dismissedPopups == {} && !chatEscalationDismissed
      ensures highlighted == {} && popups == {} && !chatOpen
    {
      isCalibrated, isPaused, calibrationPoints := false, false, map[];
      lastRawGaze, highPassGaze := Point(0.0, 0.0), Point(0.0, 0.0);
      gazeBufferX, gazeBufferY := [], [];
      historyX, historyY := [], [];
      totalSaccadeDistance := 0.0;
      interventionStartTime := None;
      dismissedPopups := {};
      chatEscalationDismissed := false;
      zoneMetrics := INITIAL_ZONES;
      InitialZonesCover();
      highlighted, popups, chatOpen := {}, {}, false;
    }

    // -------------------------------------------------------------------
    // Filters and stabilization
    // -------------------------------------------------------------------

    /** applyHighPassFilter: returns the new filter output. */
    method ApplyHighPassFilter(currentX: real, currentY: real) returns (hp: Point)
      modifies this`highPassGaze, this`lastRawGaze
      ensures FilterMemory() == Filter(old(FilterMemory()), Point(currentX, currentY))
      ensures hp == highPassGaze
    {
      highPassGaze := highPassGaze.(x := HPF_ALPHA * (highPassGaze.x + currentX - lastRawGaze.x));
      highPassGaze := highPassGaze.(y := HPF_ALPHA * (highPassGaze.y + currentY - lastRawGaze.y));
      lastRawGaze := Point(currentX, currentY);
      hp := highPassGaze;
    }

    /** getStabilizedGaze: push the sample on both buffers, evict the oldest
        past capacity, and return the means. */
    method GetStabilizedGaze(x: real, y: real) returns (g: Point)
      requires Valid()
      modifies this`gazeBufferX, this`gazeBufferY, this`historyX, this`historyY
      ensures Valid()
      ensures historyX == old(historyX) + [x] && historyY == old(historyY) + [y]
      ensures gazeBufferX == Slide(old(gazeBufferX), x) && gazeBufferY == Slide(old(gazeBufferY), y)
      ensures 1 <= |gazeBufferX| == |gazeBufferY| == Min(|historyX|, SMOOTHING_BUFFER_SIZE)
      ensures g == Point(Mean(Recent(historyX)), Mean(Recent(historyY)))
    {
      SlideKeepsRecent(historyX, x);
      SlideKeepsRecent(historyY, y);
      gazeBufferX := gazeBufferX + [x];
      gazeBufferY := gazeBufferY + [y];
      if |gazeBufferX| > SMOOTHING_BUFFER_SIZE {
        gazeBufferX := gazeBufferX[1..];
        gazeBufferY := gazeBufferY[1..];
      }
      historyX := historyX + [x];
      historyY := historyY + [y];
      var avgX := Sum(gazeBufferX) / |gazeBufferX| as real;
      var avgY := Sum(gazeBufferY) / |gazeBufferY| as real;
      g := Point(avgX, avgY);
    }

    // -------------------------------------------------------------------
    // Calibration and the tracking toggle
    // -------------------------------------------------------------------

    /** startCalibration's bookkeeping: every dot on the page starts at zero
        clicks. */
    method StartCalibration(dotIds: set<string>)
      modifies this`calibrationPoints
      ensures calibrationPoints == old(calibrationPoints) + map d | d in dotIds :: 0
    {
      calibrationPoints := calibrationPoints + map d | d in dotIds :: 0;
    }

    /** The click handler of one calibration dot. */
    method RecordCalibrationClick(dotId: string)
      requires dotId in calibrationPoints
      modifies this`calibrationPoints, this`isCalibrated
      ensures calibrationPoints == old(calibrationPoints)[dotId := old(calibrationPoints)[dotId] + 1]
      ensures isCalibrated ==
        (old(isCalibrated) || (calibrationPoints[dotId] >= CLICKS_PER_POINT && AllComplete(calibrationPoints)))
    {
      calibrationPoints := calibrationPoints[dotId := calibrationPoints[dotId] + 1];
      if calibrationPoints[dotId] >= CLICKS_PER_POINT {
        CheckCalibrationStatus();
      }
    }

    /** checkCalibrationStatus: tracking becomes calibrated once every dot
        has at least CLICKS_PER_POINT clicks; it never un-calibrates. */
    method CheckCalibrationStatus()
      modifies this`isCalibrated
      ensures isCalibrated == (old(isCalibrated) || AllComplete(calibrationPoints))
    {
      var totalPoints := |calibrationPoints.Keys|;
      var completedPoints := CountCompleted(calibrationPoints);
      CountDecidesCompletion(calibrationPoints);
      if completedPoints == totalPoints {
        isCalibrated := true;
      }
    }

    /** declinePrivacy: tracking is not calibrated. */
    method DeclinePrivacy()
      modifies this`isCalibrated
      ensures !isCalibrated
    {
      isCalibrated := false;
    }

    /** toggleTracking: pause or resume, only once calibrated. */
    method ToggleTracking()
      modifies this`isPaused
      ensures isPaused == (if isCalibrated then !old(isPaused) else old(isPaused))
    {
      if !isCalibrated {
        return;
      }
      if isPaused {
        isPaused := false;
      } else {
        isPaused := true;
      }
    }

    // -------------------------------------------------------------------
    // Confusion logic and popups
    // -------------------------------------------------------------------

    /** showCustomPopup: nothing if the zone already has a popup. It is an
        inner step of TriggerSmartResponse, which highlights the zone first;
        on its own it would leave a popup without its highlight, so it
        neither needs nor keeps Valid(). */
    method ShowCustomPopup(zoneId: ZoneId)
      modifies this`popups
      ensures Snapshot() == ShowPopup(old(Snapshot()), zoneId)
    {
      if zoneId in popups {
        return;
      }
      popups := popups + {zoneId};
    }

    /** showChatEscalation: nothing if an offer is on the page or the offer
        was dismissed. An inner step of TriggerSmartResponse. */
    method ShowChatEscalation()
      modifies this`chatOpen
      ensures Snapshot() == ShowChat(old(Snapshot()))
    {
      if chatOpen || chatEscalationDismissed {
        return;
      }
      chatOpen := true;
    }

    /** triggerSmartResponse; `present` says whether the zone's element is on
        the page. */
    method TriggerSmartResponse(zoneId: ZoneId, present: bool, now: int)
      requires Valid()
      modifies this`interventionStartTime, this`highlighted, this`popups, this`chatOpen
      ensures Valid()
      ensures Snapshot() == Trigger(old(Snapshot()), zoneId, present, now)
    {
      ApplyValid(Snapshot(), Triggered(zoneId, present, now));
      if zoneId in dismissedPopups {
        return;
      }
      if !present {
        return;
      }
      if Unset(interventionStartTime) {
        interventionStartTime := Some(now);
      }
      highlighted := highlighted + {zoneId};
      ShowCustomPopup(zoneId);
      var sustainedTime := (now - interventionStartTime.value) as real / 1000.0;
      if sustainedTime > ESCALATION_SECONDS && !chatEscalationDismissed {
        ShowChatEscalation();
      }
    }

    /** dismissPopup: the zone never gets a popup again. */
    method DismissPopup(zoneId: ZoneId)
      requires Valid()
      modifies this`dismissedPopups, this`highlighted, this`popups
      ensures Valid()
      ensures Snapshot() == Intervention.DismissPopup(old(Snapshot()), zoneId)
    {
      ApplyValid(Snapshot(), PopupDismissed(zoneId));
      dismissedPopups := dismissedPopups + {zoneId};
      highlighted := highlighted - {zoneId};
      popups := popups - {zoneId};
    }

    /** dismissChat: the offer is removed and never made again. */
    method DismissChat()
      requires Valid()
      modifies this`chatEscalationDismissed, this`chatOpen
      ensures Valid()
      ensures Snapshot() == Intervention.DismissChat(old(Snapshot()))
    {
      chatEscalationDismissed := true;
      chatOpen := false;
    }

    /** One pass of checkConfusionZones' loop body, for one zone: skip the
        zone if its element is missing, otherwise run the hit test, update
        the zone's record and respond if the trigger rule holds. */
    method CheckZone(zoneId: ZoneId, x: real, y: real, now: int, layout: Layout)
      requires Valid()
      modifies this`zoneMetrics, this`interventionStartTime, this`highlighted, this`popups, this`chatOpen
      ensures Valid()
      ensures zoneMetrics == old(zoneMetrics)[zoneId := StepZone(old(zoneMetrics)[zoneId], Element(layout, zoneId), Point(x, y), now)]
      ensures Snapshot() ==
        if Looking(Element(layout, zoneId), Point(x, y)) && Fires(zoneMetrics[zoneId], totalSaccadeDistance)
        then Trigger(old(Snapshot()), zoneId, true, now)
        else old(Snapshot())
    {
      var zone := zoneMetrics[zoneId];
      ghost var stepped := StepZone(zone, Element(layout, zoneId), Point(x, y), now);
      if zoneId !in layout {
        assert zoneMetrics == zoneMetrics[zoneId := stepped];
        return;
      }
      var rect := layout[zoneId];
      var isLooking := x >= rect.left && x <= rect.right && y >= rect.top && y <= rect.bottom;
      if isLooking {
        if !zone.isInside {
          zone := zone.(isInside := true, revisits := zone.revisits + 1, lastEntry := Some(now));
        } else {
          zone := zone.(dwellTime := zone.dwellTime + (now - EntryTime(zone)) as real / 1000.0,
                        lastEntry := Some(now));
        }
        assert zone == stepped;
        zoneMetrics := zoneMetrics[zoneId := zone];
        if zone.dwellTime > DWELL_THRESHOLD
           && (zone.revisits > REVISIT_THRESHOLD || totalSaccadeDistance > SACCADE_DISTANCE_THRESHOLD) {
          TriggerSmartResponse(zoneId, true, now);
        }
      } else {
        assert zone.(isInside := false) == stepped;
        zoneMetrics := zoneMetrics[zoneId := zone.(isInside := false)];
      }
    }

    /** checkConfusionZones: accumulate the saccade strength, then update
        every zone in order and respond to each zone whose trigger rule
        holds. */
    method CheckConfusionZones(x: real, y: real, saccadeStrength: real, now: int, layout: Layout)
      requires Valid()
      modifies this`totalSaccadeDistance, this`zoneMetrics,
               this`interventionStartTime, this`highlighted, this`popups, this`chatOpen
      ensures Valid()
      ensures totalSaccadeDistance == Accumulate(old(totalSaccadeDistance), saccadeStrength)
      ensures zoneMetrics == StepAll(old(zoneMetrics), layout, Point(x, y), now)
      ensures Snapshot() == TriggerAll(old(Snapshot()),
                TriggeredIn(ZONE_ORDER, zoneMetrics, layout, Point(x, y), totalSaccadeDistance), now)
    {
      ghost var p := Point(x, y);
      ghost var before := zoneMetrics;
      ghost var response := Snapshot();
      if saccadeStrength > SACCADE_THRESHOLD {
        totalSaccadeDistance := totalSaccadeDistance + saccadeStrength;
      }
      var i := 0;
      while i < |ZONE_ORDER|
        invariant 0 <= i <= |ZONE_ORDER|
        invariant Valid()
        invariant totalSaccadeDistance == Accumulate(old(totalSaccadeDistance), saccadeStrength)
        invariant zoneMetrics == Sweep(before, response, ZONE_ORDER[..i], layout, p, totalSaccadeDistance, now).0
        invariant Snapshot() == Sweep(before, response, ZONE_ORDER[..i], layout, p, totalSaccadeDistance, now).1
      {
        assert ZONE_ORDER[..i + 1][..i] == ZONE_ORDER[..i];
        CheckZone(ZONE_ORDER[i], x, y, now, layout);
        i := i + 1;
      }
      assert ZONE_ORDER[..|ZONE_ORDER|] == ZONE_ORDER;
      SweepAll(before, response, layout, p, totalSaccadeDistance, now);
    }

    // -------------------------------------------------------------------
    // The gaze listener
    // -------------------------------------------------------------------

    /** The gaze listener's work on an accepted sample: the filter, the
        smoothing buffer and the zone check. `sqrt` stands for Math.sqrt,
        which turns the squared length of the filter output into the
        saccade strength. */
    method ProcessSample(sample: Point, now: int, layout: Layout, sqrt: real -> real)
      requires Valid()
      modifies this`lastRawGaze, this`highPassGaze, this`gazeBufferX, this`gazeBufferY,
               this`historyX, this`historyY, this`totalSaccadeDistance, this`zoneMetrics,
               this`interventionStartTime, this`highlighted, this`popups, this`chatOpen
      ensures Valid()
      ensures FilterMemory() == Filter(old(FilterMemory()), sample)
      ensures historyX == old(historyX) + [sample.x] && historyY == old(historyY) + [sample.y]
      ensures totalSaccadeDistance == Accumulate(old(totalSaccadeDistance), sqrt(SqNorm(highPassGaze)))
      ensures zoneMetrics == StepAll(old(zoneMetrics), layout, Point(Mean(Recent(historyX)), Mean(Recent(historyY))), now)
      ensures Snapshot() == TriggerAll(old(Snapshot()),
                TriggeredIn(ZONE_ORDER, zoneMetrics, layout,
                            Point(Mean(Recent(historyX)), Mean(Recent(historyY))), totalSaccadeDistance), now)
    {
      var hpfMovement := ApplyHighPassFilter(sample.x, sample.y);
      var saccadeStrength := sqrt(SqNorm(hpfMovement));
      var stableGaze := GetStabilizedGaze(sample.x, sample.y);
      CheckConfusionZones(stableGaze.x, stableGaze.y, saccadeStrength, now, layout);
    }

    /** The gaze listener: a sample is dropped when there is none, when
        calibration has not finished or when tracking is paused; otherwise it
        is processed. */
    method OnGaze(data: Option<Point>, now: int, layout: Layout, sqrt: real -> real)
      requires Valid()
      modifies this`lastRawGaze, this`highPassGaze, this`gazeBufferX, this`gazeBufferY,
               this`historyX, this`historyY, this`totalSaccadeDistance, this`zoneMetrics,
               this`interventionStartTime, this`highlighted, this`popups, this`chatOpen
      ensures Valid()
      ensures data.None? || !isCalibrated || isPaused ==> unchanged(this)
      ensures data.Some? && isCalibrated && !isPaused ==>
        && FilterMemory() == Filter(old(FilterMemory()), data.value)
        && historyX == old(historyX) + [data.value.x] && historyY == old(historyY) + [data.value.y]
        && totalSaccadeDistance == Accumulate(old(totalSaccadeDistance), sqrt(SqNorm(highPassGaze)))
        && zoneMetrics == StepAll(old(zoneMetrics), layout, Point(Mean(Recent(historyX)), Mean(Recent(historyY))), now)
        && Snapshot() == TriggerAll(old(Snapshot()),
             TriggeredIn(ZONE_ORDER, zoneMetrics, layout,
                         Point(Mean(Recent(historyX)), Mean(Recent(historyY))), totalSaccadeDistance), now)
    {
      if data.None? || !isCalibrated || isPaused {
        return;
      }
      ProcessSample(data.value, now, layout, sqrt);
    }
  }
}

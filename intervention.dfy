/** What happens after a trigger: the smart response with its permanent
    per-zone suppression, the one popup per zone, the session-wide
    intervention start time and the one-time chat escalation offer. */
module Intervention {
  import opened Wrappers
  import opened Gaze
  import opened Zones

  /** Seconds since the intervention started after which the chat is offered. */
  const ESCALATION_SECONDS: real := 15.0

  /** The intervention part of the script's state, with the page elements
      it creates read as sets and flags: `highlighted` holds the zones
      whose element carries the confusion highlight, `popups` the zones with
      a popup on the page, `chatOpen` whether the chat offer is on the page. */
  datatype Response = Response(
    start: Option<int>,
    dismissed: set<ZoneId>,
    highlighted: set<ZoneId>,
    popups: set<ZoneId>,
    chatOpen: bool,
    chatDismissed: bool)

  const INITIAL_RESPONSE := Response(None, {}, {}, {}, false, false)

  /** `!interventionStartTime` in the script: null, or the falsy time 0. */
  predicate Unset(start: Option<int>) {
    start.None? || start.value == 0
  }

  /** showCustomPopup: one popup per zone; a zone that has one keeps it. */
  function ShowPopup(r: Response, z: ZoneId): (r': Response)
    ensures r'.popups == r.popups + {z}
    ensures r' == r.(popups := r'.popups)
  {
    if z in r.popups then r else r.(popups := r.popups + {z})
  }

  /** showChatEscalation: at most one offer on the page, none once dismissed. */
  function ShowChat(r: Response): (r': Response)
    ensures r'.chatOpen == (r.chatOpen || !r.chatDismissed)
    ensures r' == r.(chatOpen := r'.chatOpen)
  {
    if r.chatOpen || r.chatDismissed then r else r.(chatOpen := true)
  }

  /** Whole seconds-with-fraction since the intervention start. */
  function Sustained(start: int, now: int): real {
    (now - start) as real / 1000.0
  }

  /** triggerSmartResponse for zone `z` at time `now`; `present` says whether
      the zone's element is on the page. */
  function Trigger(r: Response, z: ZoneId, present: bool, now: int): (r': Response)
    ensures r'.dismissed == r.dismissed && r'.chatDismissed == r.chatDismissed
    ensures z in r.dismissed || !present ==> r' == r
    ensures z !in r.dismissed && present ==>
      && r'.highlighted == r.highlighted + {z}
      && r'.popups == r.popups + {z}
      && r'.start == (if Unset(r.start) then Some(now) else r.start)
    ensures !Unset(r.start) ==> r'.start == r.start
    ensures r'.chatOpen <==>
      r.chatOpen || (z !in r.dismissed && present && !r.chatDismissed
                     && Sustained(r'.start.value, now) > ESCALATION_SECONDS)
  {
    if z in r.dismissed || !present then r
    else
      var r1 := if Unset(r.start) then r.(start := Some(now)) else r;
      var r2 := ShowPopup(r1.(highlighted := r1.highlighted + {z}), z);
      if Sustained(r2.start.value, now) > ESCALATION_SECONDS && !r2.chatDismissed then ShowChat(r2) else r2
  }

  /** dismissPopup: the zone is suppressed for good, its highlight and its
      popup are removed. */
  function DismissPopup(r: Response, z: ZoneId): (r': Response)
    ensures r'.dismissed == r.dismissed + {z}
    ensures r'.highlighted == r.highlighted - {z} && r'.popups == r.popups - {z}
    ensures r'.start == r.start && r'.chatOpen == r.chatOpen && r'.chatDismissed == r.chatDismissed
  {
    r.(dismissed := r.dismissed + {z}, highlighted := r.highlighted - {z}, popups := r.popups - {z})
  }

  /** dismissChat: the offer is removed and never made again. */
  function DismissChat(r: Response): (r': Response)
    ensures r'.chatDismissed && !r'.chatOpen
    ensures r' == r.(chatOpen := false, chatDismissed := true)
  {
    r.(chatOpen := false, chatDismissed := true)
  }

  /** The responses to the zones that one sample triggered, in order. */
  function TriggerAll(r: Response, zs: seq<ZoneId>, now: int): Response
  {
    if zs == [] then r
    else Trigger(TriggerAll(r, zs[..|zs| - 1], now), zs[|zs| - 1], true, now)
  }

  /** Responding to a series of zones leaves the suppressions alone and
      gives a popup to exactly the zones of the series that are not
      suppressed, besides those that already had one. */
  lemma {:induction false} TriggerAllPopups(r: Response, zs: seq<ZoneId>, now: int)
    ensures TriggerAll(r, zs, now).dismissed == r.dismissed
    ensures TriggerAll(r, zs, now).chatDismissed == r.chatDismissed
    ensures forall z :: z in TriggerAll(r, zs, now).popups <==> z in r.popups || (z in zs && z !in r.dismissed)
    decreases |zs|
  {
    if zs != [] {
      var o := zs[..|zs| - 1];
      TriggerAllPopups(r, o, now);
      assert zs == o + [zs[|zs| - 1]];
    }
  }

  /** The response to one sample, zone by zone along `order`: a zone that
      has a record, whose element is on the page and under the gaze, and
      whose record satisfies the trigger rule gets the smart response. */
  function Respond(r: Response, order: seq<ZoneId>, zones: map<ZoneId, ZoneState>,
                   layout: Layout, p: Point, total: real, now: int): Response
  {
    if order == [] then r
    else
      var z := order[|order| - 1];
      var rest := Respond(r, order[..|order| - 1], zones, layout, p, total, now);
      if z in zones && Looking(Element(layout, z), p) && Fires(zones[z], total) then Trigger(rest, z, true, now) else rest
  }

  /** checkConfusionZones' loop as a fold: each zone of `order` that has a
      record is updated by the sample and, when the trigger rule holds for
      its new record, responded to before the next zone is looked at. */
  function Sweep(zones: map<ZoneId, ZoneState>, r: Response, order: seq<ZoneId>,
                 layout: Layout, p: Point, total: real, now: int): (map<ZoneId, ZoneState>, Response)
    decreases |order|
  {
    if order == [] then (zones, r)
    else
      var (zs, rest) := Sweep(zones, r, order[..|order| - 1], layout, p, total, now);
      var z := order[|order| - 1];
      if z !in zs then (zs, rest)
      else
        var s := StepZone(zs[z], Element(layout, z), p, now);
        (zs[z := s], if Looking(Element(layout, z), p) && Fires(s, total) then Trigger(rest, z, true, now) else rest)
  }

  /** The loop neither adds nor drops zone records, never suppresses a zone
      or dismisses the chat, and keeps the response state consistent. */
  lemma {:induction false} SweepKeeps(zones: map<ZoneId, ZoneState>, r: Response, order: seq<ZoneId>,
                                      layout: Layout, p: Point, total: real, now: int)
    ensures Sweep(zones, r, order, layout, p, total, now).0.Keys == zones.Keys
    ensures Sweep(zones, r, order, layout, p, total, now).1.dismissed == r.dismissed
    ensures Sweep(zones, r, order, layout, p, total, now).1.chatDismissed == r.chatDismissed
    ensures Valid(r) ==> Valid(Sweep(zones, r, order, layout, p, total, now).1)
    decreases |order|
  {
    if order != [] {
      SweepKeeps(zones, r, order[..|order| - 1], layout, p, total, now);
    }
  }

  /** Along an order without repeats, the fold updates exactly the zones of
      the order and leaves the others alone. */
  lemma {:induction false} SweepUpdates(zones: map<ZoneId, ZoneState>, r: Response, order: seq<ZoneId>,
                                        layout: Layout, p: Point, total: real, now: int)
    requires forall i, j :: 0 <= i < j < |order| ==> order[i] != order[j]
    ensures Sweep(zones, r, order, layout, p, total, now).0
         == map z | z in zones :: if z in order then StepZone(zones[z], Element(layout, z), p, now) else zones[z]
    decreases |order|
  {
    if order != [] {
      var o := order[..|order| - 1];
      var z := order[|order| - 1];
      SweepUpdates(zones, r, o, layout, p, total, now);
      assert order == o + [z];
      assert z !in o;
    }
  }

  /** Along an order without repeats, the fold responds as `Respond` does
      once every record has been updated. */
  lemma {:induction false} SweepResponds(zones: map<ZoneId, ZoneState>, r: Response, order: seq<ZoneId>,
                                         layout: Layout, p: Point, total: real, now: int)
    requires forall i, j :: 0 <= i < j < |order| ==> order[i] != order[j]
    ensures Sweep(zones, r, order, layout, p, total, now).1
         == Respond(r, order, StepAll(zones, layout, p, now), layout, p, total, now)
    decreases |order|
  {
    if order != [] {
      var o := order[..|order| - 1];
      var z := order[|order| - 1];
      SweepResponds(zones, r, o, layout, p, total, now);
      SweepUpdates(zones, r, o, layout, p, total, now);
      assert order == o + [z];
      assert z !in o;
    }
  }

  /** Responding zone by zone is responding to the triggered zones in order. */
  lemma {:induction false} RespondIsTriggerAll(r: Response, order: seq<ZoneId>, zones: map<ZoneId, ZoneState>,
                                               layout: Layout, p: Point, total: real, now: int)
    ensures Respond(r, order, zones, layout, p, total, now)
         == TriggerAll(r, TriggeredIn(order, zones, layout, p, total), now)
    decreases |order|
  {
    if order != [] {
      var z := order[|order| - 1];
      RespondIsTriggerAll(r, order[..|order| - 1], zones, layout, p, total, now);
      var t := TriggeredIn(order[..|order| - 1], zones, layout, p, total);
      assert (t + [z])[..|t|] == t;
    }
  }

  /** The fold along the script's zone order updates every zone as
      `StepAll` does and responds to the zones `TriggeredIn` picks, in
      order. */
  lemma SweepAll(zones: map<ZoneId, ZoneState>, r: Response, layout: Layout, p: Point, total: real, now: int)
    ensures Sweep(zones, r, ZONE_ORDER, layout, p, total, now).0 == StepAll(zones, layout, p, now)
    ensures Sweep(zones, r, ZONE_ORDER, layout, p, total, now).1
         == TriggerAll(r, TriggeredIn(ZONE_ORDER, StepAll(zones, layout, p, now), layout, p, total), now)
  {
    ZonesInOrder();
    SweepUpdates(zones, r, ZONE_ORDER, layout, p, total, now);
    SweepResponds(zones, r, ZONE_ORDER, layout, p, total, now);
    RespondIsTriggerAll(r, ZONE_ORDER, StepAll(zones, layout, p, now), layout, p, total, now);
  }

  // ---------------------------------------------------------------------
  // Sessions of intervention events
  // ---------------------------------------------------------------------

  datatype Event =
    | Triggered(zone: ZoneId, present: bool, now: int)
    | PopupDismissed(zone: ZoneId)
    | ChatDismissed

  function Apply(r: Response, e: Event): Response {
    match e
    case Triggered(z, present, now) => Trigger(r, z, present, now)
    case PopupDismissed(z) => DismissPopup(r, z)
    case ChatDismissed => DismissChat(r)
  }

  /** The state after a series of events, oldest first. */
  function Replay(r: Response, evs: seq<Event>): Response
    decreases |evs|
  {
    if evs == [] then r else Replay(Apply(r, evs[0]), evs[1..])
  }

  /** Replaying one more event is applying it to the replayed state. */
  lemma {:induction false} ReplaySnoc(r: Response, evs: seq<Event>, e: Event)
    ensures Replay(r, evs + [e]) == Apply(Replay(r, evs), e)
    decreases |evs|
  {
    if evs != [] {
      ReplaySnoc(Apply(r, evs[0]), evs[1..], e);
      assert (evs + [e])[1..] == evs[1..] + [e];
    }
  }

  /** The trigger events of one sample's responses, in zone order. */
  function Triggers(zs: seq<ZoneId>, now: int): (evs: seq<Event>)
    ensures |evs| == |zs|
    ensures forall i :: 0 <= i < |zs| ==> evs[i] == Triggered(zs[i], true, now)
  {
    seq(|zs|, i requires 0 <= i < |zs| => Triggered(zs[i], true, now))
  }

  /** The responses of one sample are a replay of trigger events, so every
      session property proved over Replay covers a series of samples. */
  lemma {:induction false} TriggerAllIsReplay(r: Response, zs: seq<ZoneId>, now: int)
    ensures TriggerAll(r, zs, now) == Replay(r, Triggers(zs, now))
    decreases |zs|
  {
    if zs != [] {
      var o := zs[..|zs| - 1];
      var z := zs[|zs| - 1];
      TriggerAllIsReplay(r, o, now);
      assert Triggers(zs, now) == Triggers(o, now) + [Triggered(z, true, now)];
      ReplaySnoc(r, Triggers(o, now), Triggered(z, true, now));
    }
  }

  /** The number of events that put the chat offer on the page. */
  function Offers(r: Response, evs: seq<Event>): nat
    decreases |evs|
  {
    if evs == [] then 0
    else
      var r' := Apply(r, evs[0]);
      (if !r.chatOpen && r'.chatOpen then 1 else 0) + Offers(r', evs[1..])
  }

  /** The number of events that put a popup for zone `z` on the page. */
  function Creations(r: Response, evs: seq<Event>, z: ZoneId): nat
    decreases |evs|
  {
    if evs == [] then 0
    else
      var r' := Apply(r, evs[0]);
      (if z !in r.popups && z in r'.popups then 1 else 0) + Creations(r', evs[1..], z)
  }

  /** The consistency of the response state: a suppressed zone has neither
      highlight nor popup, every highlighted zone has its popup and back,
      and a dismissed chat is not on the page. */
  predicate Valid(r: Response) {
    && r.popups == r.highlighted
    && r.popups !! r.dismissed
    && (r.chatOpen ==> !r.chatDismissed)
  }

  lemma InitialValid()
    ensures Valid(INITIAL_RESPONSE)
  {
  }

  lemma ApplyValid(r: Response, e: Event)
    requires Valid(r)
    ensures Valid(Apply(r, e))
  {
  }

  /** Every reachable response state is consistent. */
  lemma {:induction false} ReplayValid(r: Response, evs: seq<Event>)
    requires Valid(r)
    ensures Valid(Replay(r, evs))
    decreases |evs|
  {
    if evs != [] {
      ApplyValid(r, evs[0]);
      ReplayValid(Apply(r, evs[0]), evs[1..]);
    }
  }

  /** Suppression is permanent: once a zone is dismissed it stays dismissed
      and no later trigger puts a highlight or a popup on it again. */
  lemma {:induction false} DismissedStaysSuppressed(r: Response, evs: seq<Event>, z: ZoneId)
    requires Valid(r) && z in r.dismissed
    ensures z in Replay(r, evs).dismissed
    ensures z !in Replay(r, evs).popups && z !in Replay(r, evs).highlighted
    decreases |evs|
  {
    if evs != [] {
      ApplyValid(r, evs[0]);
      DismissedStaysSuppressed(Apply(r, evs[0]), evs[1..], z);
    }
  }

  /** The intervention start time is fixed by the first response and never
      moves after (for the non-zero times a clock gives). */
  lemma {:induction false} StartNeverMoves(r: Response, evs: seq<Event>)
    requires !Unset(r.start)
    ensures Replay(r, evs).start == r.start
    decreases |evs|
  {
    if evs != [] {
      StartNeverMoves(Apply(r, evs[0]), evs[1..]);
    }
  }

  /** After the chat offer is dismissed it is never on the page again. */
  lemma {:induction false} ChatNeverAfterDismissal(r: Response, evs: seq<Event>)
    requires r.chatDismissed && !r.chatOpen
    ensures Replay(r, evs).chatDismissed && !Replay(r, evs).chatOpen
    decreases |evs|
  {
    if evs != [] {
      ChatNeverAfterDismissal(Apply(r, evs[0]), evs[1..]);
    }
  }

  /** The escalation fires at most once in a session, and not at all once
      it is on the page or has been dismissed. */
  lemma {:induction false} OfferedAtMostOnce(r: Response, evs: seq<Event>)
    requires Valid(r)
    ensures Offers(r, evs) <= (if r.chatOpen || r.chatDismissed then 0 else 1)
    decreases |evs|
  {
    if evs != [] {
      var r' := Apply(r, evs[0]);
      ApplyValid(r, evs[0]);
      OfferedAtMostOnce(r', evs[1..]);
      if !r.chatOpen && r'.chatOpen {
        assert !r'.chatDismissed;
      }
    }
  }

  /** A zone's popup is created at most once in a session: while it is on
      the page no second one is added, and once it is dismissed the zone is
      suppressed for good. */
  lemma {:induction false} PopupCreatedOnce(r: Response, evs: seq<Event>, z: ZoneId)
    requires Valid(r)
    ensures Creations(r, evs, z) <= (if z in r.popups || z in r.dismissed then 0 else 1)
    decreases |evs|
  {
    if evs != [] {
      var r' := Apply(r, evs[0]);
      ApplyValid(r, evs[0]);
      PopupCreatedOnce(r', evs[1..], z);
    }
  }

  /** The chat is offered only by a trigger, more than fifteen seconds
      after the intervention started, and only if it was never dismissed. */
  lemma OfferNeedsSustainedConfusion(r: Response, e: Event)
    requires !r.chatOpen && Apply(r, e).chatOpen
    ensures e.Triggered? && e.present && e.zone !in r.dismissed && !r.chatDismissed
    ensures Apply(r, e).start.Some?
    ensures Sustained(Apply(r, e).start.value, e.now) > ESCALATION_SECONDS
  {
  }

  /** The escalation clock: the first response of a session starts it
      without offering the chat, and a later response offers the chat
      exactly when it comes more than 15000 ms after the first. */
  lemma EscalationTiming(r: Response, z1: ZoneId, z2: ZoneId, t: int, d: int)
    requires Unset(r.start) && t != 0 && !r.chatOpen && !r.chatDismissed
    requires z1 !in r.dismissed && z2 !in r.dismissed
    ensures Trigger(r, z1, true, t).start == Some(t)
    ensures !Trigger(r, z1, true, t).chatOpen
    ensures Trigger(Trigger(r, z1, true, t), z2, true, t + d).chatOpen <==> d > 15000
  {
  }
}

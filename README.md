# Clarity Guardian confusion detector, in Dafny

This project models the confusion detector of the Clarity Guardian checkout
page (`script.js`). The detector reads gaze samples from an eye tracker. It
turns them into a confusion trigger for each of the four page zones
(shipping, payment, items, summary) and one escalation per session:

- **Sample gate.** A sample is dropped when it is null, when calibration
  has not finished, or when tracking is paused.
- **High-pass filter.** A first-order recursive filter with α = 0.8 runs
  over the raw position. The length of its output is the saccade strength.
- **Smoothing buffers.** Two first-in first-out buffers, one per axis, hold
  at most 10 samples. Their means give the stabilized gaze.
- **Zone records.** Each zone runs a two-state dwell machine over a
  rectangle hit test: entries count as revisits, and dwell seconds build up
  while the gaze stays inside. The session keeps a running total of the
  saccade distance.
- **Trigger rule.** A zone fires when its dwell is above 5 seconds and it
  has more than 3 revisits or the saccade distance is above 6000.
- **Smart response.** It has per-zone suppression that lasts for good, one
  popup per zone, and an intervention start time set once. More than 15
  seconds after that start, a chat is offered once, and never after it was
  dismissed.
- **Calibration and the pause toggle.** Calibration completes once every
  calibration dot has 5 clicks. Pausing and resuming only work once
  calibrated.

The modules:

- `Wrappers` holds `Option`.
- `Gaze` holds the filter and the buffer as functions, with their
  convergence and windowing properties.
- `Zones` holds the zone state machine, the trigger rule and runs of
  observations.
- `Intervention` holds the response state as a value, the smart response,
  dismissals, sessions of events, and checkConfusionZones' loop as a fold.
- `Calibration` holds the completion rule and the counting loop.
- `Guardian` holds the class `ClarityGuardian`. Every module-level variable
  of the script is a field of it. Every function of the script that changes
  those variables is a method. Each method's postcondition gives the new
  state through the functions above.

Page effects are fields:
- `highlighted`: the zones that carry the confusion highlight;
- `popups`: the zones that have a popup;
- `chatOpen`: whether the chat offer is on the page.

Several things are inputs instead of reads:
- The clock (`Date.now()`) is the parameter `now`, in integer milliseconds.
- The page layout is a map from zone to rectangle. A zone without an entry
  has no element on the page.
- `Math.sqrt` is the parameter `sqrt`.

Coordinates, filter outputs, means and dwell seconds are `real`;
timestamps are integer milliseconds. The ghost fields `historyX` and
`historyY` record every accepted sample.

Dwell is kept in seconds: the code divides the millisecond difference by
1000 (script.js:159).

## Model

| member | source | states |
|---|---|---|
| Gaze.HighPass | script.js:80-81 | on each axis, the new output minus α times the old output is α times the change of the raw input; a sample equal to the previous one scales the output by α |
| Gaze.Filter | script.js:79-85 | after a sample, the remembered raw point is that sample |
| Gaze.PowAlphaBounds | script.js:17 | 0 < 0.8^n <= 1 and 0.8^n (4 + n) <= 4 |
| Gaze.HoldScales | script.js:79-85 | holding the gaze on the last raw point for n samples scales the filter output by exactly 0.8^n |
| Gaze.StillSampleShrinks | script.js:80-81 | a still sample scales the squared norm of the output by 0.64 and each component's size by 0.8, so a nonzero output strictly shrinks |
| Gaze.ConstantInputConverges | script.js:79-85 | for a constant input, the output n samples after the first is at most 4/(4+n) of the first output on each axis, so it tends to zero |
| Gaze.Slide | script.js:88-93 | after push and shift the buffer holds 1 to 10 values, and the newest value is last |
| Gaze.Recent | script.js:87-93 | the window of a history of n samples has min(n, 10) values |
| Gaze.SlideKeepsRecent | script.js:88-93 | pushing and shifting the last min(n, 10) samples gives the last min(n+1, 10) samples of the longer history |
| Gaze.Sum | script.js:94-95 | the left fold `reduce((a, b) => a + b, 0)`; its properties are stated by SumConcat and SumWithin |
| Gaze.SumConcat | script.js:94-95 | the sum of two pieces of a buffer is the sum of their sums |
| Gaze.SumWithin | script.js:94-95 | the sum of n values between lo and hi lies between n·lo and n·hi |
| Gaze.Mean | script.js:94-95 | the mean times the number of values is their sum |
| Gaze.MeanWithin | script.js:94-95 | the mean of the buffer lies between any lower and upper bound of its contents |
| Zones.ZonesInOrder | script.js:27-46 | the iteration order lists each of the four zones exactly once |
| Zones.InitialZonesCover | script.js:27-46 | every zone starts outside, with no dwell, no revisits and no entry time, and the zone invariant holds |
| Zones.Hit | script.js:150-151 | the inclusive hit test; a hit needs a non-empty rectangle |
| Zones.CornersHit | script.js:150-151 | every corner of a non-empty rectangle is a hit, since all four comparisons are inclusive |
| Zones.StepZone | script.js:146-171 | missing element: record unchanged; otherwise isInside is the hit test; revisits grow by one exactly on entry; a hit sets lastEntry to now; a miss changes nothing but isInside; dwell changes only on a hit while inside, and then grows by the milliseconds since the last entry divided by 1000 |
| Zones.Accumulate | script.js:142 | the saccade distance never decreases, grows only when the strength is above 15, and then by exactly the strength |
| Zones.StepAll | script.js:144-172 | updating all zones neither adds nor drops a zone record (what each record becomes is stated by StepAllSkipsMissing and, with the response, by Intervention.SweepAll) |
| Zones.StepAllSkipsMissing | script.js:146-147 | a zone whose element is missing keeps its record |
| Zones.Fires | script.js:163-166 | the trigger rule; its properties are stated by DwellIsStrict, FiresJustAboveFive and FiresMonotone |
| Zones.FiresMonotone | script.js:163-166 | a record with at least the dwell and revisits of a firing record, at a distance at least as large, fires too |
| Zones.TriggeredInMembers | script.js:163-168 | a zone asks for a response exactly when its element is under the gaze and its updated record has dwell > 5 and (revisits > 3 or distance > 6000) |
| Zones.DwellIsStrict | script.js:164 | a dwell of 5 seconds or less never fires |
| Zones.FiresJustAboveFive | script.js:163-166 | dwell 5.01 with 4 revisits fires; dwell 5.0 does not, even with distance above 6000 |
| Zones.StepMonotone | script.js:153-161 | with a time not before the entry time, one update never lowers dwell or revisits |
| Zones.RevisitsCountEntries | script.js:153-171 | over a run of samples, revisits grow by exactly the number of entries into the zone |
| Zones.RunMonotone | script.js:153-171 | with non-decreasing timestamps, dwell and revisits never decrease over a run |
| Zones.MissingElementUntouched | script.js:146-147 | a zone whose element is missing for a whole run is untouched |
| Zones.ContinuousVisit | script.js:153-161 | a run that stays on the zone from outside counts one revisit and accrues exactly (last − first)/1000 seconds of dwell |
| Zones.StayInside | script.js:158-161 | while the gaze stays inside, dwell grows by the elapsed seconds since the entry time and revisits stay put |
| Intervention.ShowPopup | script.js:192-193 | the zone has a popup afterwards, and nothing else changes |
| Intervention.PopupCreatedOnce | script.js:192-193 | over any series of events a zone's popup is created at most once, and not at all when the zone already has one or is suppressed |
| Intervention.ShowChat | script.js:262-263 | the chat is on the page afterwards unless it was dismissed; nothing else changes |
| Intervention.Trigger | script.js:175-190 | a suppressed zone or a missing element changes nothing; otherwise the zone is highlighted and has a popup; the start time is set only when unset; the chat opens exactly when not dismissed and more than 15 s have passed since the start |
| Intervention.DismissPopup | script.js:249-260 | the zone is suppressed and loses its highlight and popup; every other zone keeps its highlight and popup; the start time and the chat are untouched |
| Intervention.DismissChat | script.js:276-279 | the chat is dismissed and off the page; nothing else changes |
| Intervention.TriggerAllPopups | script.js:175-190 | responding to a series of zones keeps the suppressions and gives a popup to exactly the unsuppressed zones of the series |
| Intervention.TriggerAllIsReplay | script.js:167-190 | the responses of one sample equal a replay of one trigger event per triggered zone, in order, so every session property proved over events covers a series of samples |
| Intervention.RespondIsTriggerAll | script.js:144-172 | responding zone by zone equals responding, in order, to the zones that asked for a response |
| Intervention.Sweep | script.js:144-172 | the loop as a fold, zone by zone: update the record, then respond when the new record fires; its properties are stated by SweepKeeps, SweepUpdates, SweepResponds and SweepAll |
| Intervention.SweepKeeps | script.js:144-172 | the loop neither adds nor drops zone records, never suppresses a zone or dismisses the chat, and keeps the response state consistent |
| Intervention.SweepUpdates | script.js:144-172 | along an order without repeats, the loop updates exactly the zones of the order |
| Intervention.SweepResponds | script.js:144-172 | along an order without repeats, the loop responds as if every record had been updated first |
| Intervention.SweepAll | script.js:144-172 | the loop over the four zones updates every zone and responds, in zone order, to exactly the zones that fire |
| Intervention.InitialValid | script.js:22-25 | the initial response state is consistent |
| Intervention.ApplyValid | script.js:175-279 | a trigger, a popup dismissal or a chat dismissal keeps the response state consistent |
| Intervention.ReplayValid | script.js:175-279 | every state reached by a series of events is consistent: popups match highlights, no suppressed zone has one, and a dismissed chat is not open |
| Intervention.DismissedStaysSuppressed | script.js:249-250 | once dismissed, a zone stays suppressed, and no later event gives it a highlight or a popup |
| Intervention.StartNeverMoves | script.js:181 | once set to a nonzero time, the intervention start never changes |
| Intervention.ChatNeverAfterDismissal | script.js:276-277 | after dismissChat the chat is never on the page again |
| Intervention.OfferedAtMostOnce | script.js:262-263 | over any series of events, the chat is offered at most once, and never when already open or dismissed |
| Intervention.OfferNeedsSustainedConfusion | script.js:188-189 | the chat is offered only by a trigger of an unsuppressed, present zone, undismissed, more than 15 s after the start |
| Intervention.EscalationTiming | script.js:181-189 | the first response starts the clock without offering the chat; a second response offers it exactly when it comes more than 15000 ms later |
| Calibration.Completed | script.js:126-128 | the completed dots are dots of the map |
| Calibration.CountDecidesCompletion | script.js:124-131 | the count of completed dots equals the number of dots exactly when every dot has at least 5 clicks |
| Calibration.CountCompleted | script.js:124-128 | the counting loop returns the number of dots with at least 5 clicks, at most the number of dots |
| Guardian.ClarityGuardian.constructor | script.js:9-47 | the initial globals: not calibrated, not paused, filter at the origin, empty buffers, zero distance, no start time, nothing suppressed, every zone at rest, nothing on the page |
| Guardian.ClarityGuardian.ApplyHighPassFilter | script.js:79-85 | the filter fields take the filter step for the sample, and the result is the new output |
| Guardian.ClarityGuardian.GetStabilizedGaze | script.js:87-97 | both buffers take push and shift, have equal length between 1 and 10 and hold the last min(n, 10) samples; the result is their means |
| Guardian.ClarityGuardian.StartCalibration | script.js:104-107 | every dot starts at zero clicks |
| Guardian.ClarityGuardian.RecordCalibrationClick | script.js:109-118 | the dot gains one click; calibration completes when this click brings the dot to 5 or more and every dot is complete |
| Guardian.ClarityGuardian.CheckCalibrationStatus | script.js:123-137 | calibrated afterwards exactly when already calibrated or every dot has at least 5 clicks |
| Guardian.ClarityGuardian.DeclinePrivacy | script.js:282-290 | tracking is not calibrated afterwards |
| Guardian.ClarityGuardian.ToggleTracking | script.js:298-310 | the pause flag flips when calibrated and stays otherwise |
| Guardian.ClarityGuardian.ShowCustomPopup | script.js:192-193 | the response state becomes ShowPopup of the old one |
| Guardian.ClarityGuardian.ShowChatEscalation | script.js:262-263 | the response state becomes ShowChat of the old one |
| Guardian.ClarityGuardian.TriggerSmartResponse | script.js:175-190 | the response state becomes Trigger of the old one, and the object invariant is kept |
| Guardian.ClarityGuardian.DismissPopup | script.js:249-260 | the response state becomes DismissPopup of the old one, and the object invariant is kept |
| Guardian.ClarityGuardian.DismissChat | script.js:276-279 | the response state becomes DismissChat of the old one, and the object invariant is kept |
| Guardian.ClarityGuardian.CheckZone | script.js:145-171 | the zone's record takes StepZone and the others stay; the response is Trigger exactly when the gaze is on the element and the new record fires |
| Guardian.ClarityGuardian.CheckConfusionZones | script.js:140-173 | the distance takes Accumulate, the zone records take StepAll, and the response answers the zones that fire, in zone order |
| Guardian.ClarityGuardian.ProcessSample | script.js:56-62 | filter step, buffer step and zone check, in that order; the strength is sqrt of the squared length of the new filter output |
| Guardian.ClarityGuardian.OnGaze | script.js:53-63 | a null sample, an uncalibrated or a paused tracker changes nothing; otherwise the sample is processed as ProcessSample states |

## Left out

- WebGazer itself is not modelled: initialisation, `begin`, `pause`, `resume`, the Kalman filter flag, the video preview and `recordScreenPosition` (script.js:50-76, 112, 302, 306). These are calls into a foreign library.
- The DOM is not modelled. That covers element lookup, `getBoundingClientRect`, class changes, the popup content table, HTML and styling, the dot opacity and colour, and the status text. Rectangles and the presence of elements are inputs. Highlight, popup and chat presence are the fields `highlighted`, `popups` and `chatOpen`.
- The privacy modal is not modelled beyond `declinePrivacy` clearing `isCalibrated`. `acceptPrivacy` only starts the tracker and calibration.
- Floating point is not modelled: coordinates, the filter, the means and the dwell seconds are exact reals. So 0.8 is exactly 4/5 and rounding is absent.
- The clock is the parameter `now`. For one sample the script reads `Date.now()` once at script.js:141 and, for each zone that triggers, once more at script.js:188, plus once at script.js:181 while the start time is unset; with four zones firing that is up to six reads. The model uses one `now` for all of them, so the sample is taken to be processed within one clock tick.
- `Math.sqrt` is the parameter `sqrt`. No property of the square root is assumed.
- Session metrics and the conversion estimate do not appear in `script.js`, so they are not modelled.
- Gaze.StillSampleShrinks: the strict decrease is stated for the sum of the absolute components. The squared Euclidean norm is stated to scale by exactly 0.64. A separate statement that a nonzero norm strictly decreases is not given.
- Guardian.ClarityGuardian.RecordCalibrationClick: it requires the dot to have a click count. In the script, each click handler is registered right after its dot's count is set to 0 (script.js:106-109). Disabling a dot after 5 clicks is a CSS `pointer-events` change, so further clicks on that dot are not modelled as impossible.
- Intervention.StartNeverMoves: `if (!interventionStartTime)` is a falsy test. A start time equal to 0 counts as unset and would be overwritten. The lemma covers nonzero start times, which are what a clock gives.
- In the model a zone's popup is removed together with its highlight. In the script, `dismissPopup` removes the clicked popup element. The model identifies that element with the zone's popup, which `showCustomPopup` keeps unique.

/**
 * The older single-counter service (server/opencv-service.js): an inclusive
 * box-centre test, entry-before-exit zone resolution, one global `personCount` that an
 * exit never takes below zero, the wrong-direction alarm, and the detection flag.
 * Boxes are real-valued, as the simulated detector produces fractional coordinates.
 */
module OpenCvService {
  import opened Wrappers
  import opened Types
  import CounterService

  /** A detector's bounding box. */
  datatype Box = Box(x: real, y: real, width: real, height: real)

  /** The two zone names a detection can carry. */
  datatype ZoneLabel = EntryZone | ExitZone

  /** A detection that fell in a zone; `direction` is derived from the zone. */
  datatype Detection = Detection(box: Box, zone: ZoneLabel, direction: Direction)

  /**
   * `isInZone`: the centre of the box, `(x + width / 2, y + height / 2)`, lies within
   * the rectangle, all four bounds inclusive. The zone's `enabled` flag is not read.
   */
  predicate IsInZone(b: Box, z: Zone) {
    var cx := b.x + b.width / 2.0;
    var cy := b.y + b.height / 2.0;
    z.x as real <= cx <= (z.x + z.width) as real && z.y as real <= cy <= (z.y + z.height) as real
  }

  /**
   * For a box with integer coordinates the test is the same as comparing doubled
   * integers: `2 * zone.x <= 2 * x + width <= 2 * (zone.x + zone.width)`, and likewise
   * vertically. No rounding of the half-width is involved.
   */
  lemma IsInZoneDoubled(x: int, y: int, w: int, h: int, z: Zone)
    ensures IsInZone(Box(x as real, y as real, w as real, h as real), z)
        <==> (2 * z.x <= 2 * x + w <= 2 * (z.x + z.width) && 2 * z.y <= 2 * y + h <= 2 * (z.y + z.height))
  {
    var cx := x as real + (w as real) / 2.0;
    var cy := y as real + (h as real) / 2.0;
    assert 2.0 * cx == (2 * x + w) as real;
    assert 2.0 * cy == (2 * y + h) as real;
    assert z.x as real <= cx <==> 2 * z.x <= 2 * x + w;
    assert cx <= (z.x + z.width) as real <==> 2 * x + w <= 2 * (z.x + z.width);
    assert z.y as real <= cy <==> 2 * z.y <= 2 * y + h;
    assert cy <= (z.y + z.height) as real <==> 2 * y + h <= 2 * (z.y + z.height);
  }

  /**
   * The zone resolution of `simulatePersonDetection`: the entry zone if it is enabled
   * and holds the centre, otherwise the exit zone if it is enabled and holds it, else
   * none.
   */
  function ResolveZone(zones: Zones, b: Box): Option<ZoneLabel> {
    if zones.entry.enabled && IsInZone(b, zones.entry) then Some(EntryZone)
    else if zones.exit.enabled && IsInZone(b, zones.exit) then Some(ExitZone)
    else None
  }

  /**
   * A disabled zone is never chosen; an enabled zone holding the centre always leads to
   * some zone being chosen; and where both enabled zones hold the centre, entry wins.
   */
  lemma ResolveZoneRules(zones: Zones, b: Box)
    ensures ResolveZone(zones, b) == Some(EntryZone) ==> zones.entry.enabled && IsInZone(b, zones.entry)
    ensures ResolveZone(zones, b) == Some(ExitZone) ==> zones.exit.enabled && IsInZone(b, zones.exit)
    ensures ResolveZone(zones, b).None? <==>
              !(zones.entry.enabled && IsInZone(b, zones.entry)) && !(zones.exit.enabled && IsInZone(b, zones.exit))
    ensures zones.entry.enabled && IsInZone(b, zones.entry) ==> ResolveZone(zones, b) == Some(EntryZone)
  {
  }

  /** `direction: zone === 'entry' ? 'in' : 'out'`. */
  function DirectionOf(zone: ZoneLabel): (d: Direction)
    ensures d == In <==> zone == EntryZone
  {
    if zone == EntryZone then In else Out
  }

  /**
   * One simulated detector call, with its randomness as parameters: `fires` is whether
   * the random draw produced a box, `b` that box. At most one detection results, and one
   * results exactly when a box was drawn and a zone holds it.
   */
  function Simulate(zones: Zones, fires: bool, b: Box): (r: seq<Detection>)
    ensures |r| <= 1
    ensures |r| == 1 <==> fires && ResolveZone(zones, b).Some?
    ensures |r| == 1 ==> r[0] == Detection(b, ResolveZone(zones, b).value, DirectionOf(ResolveZone(zones, b).value))
  {
    if fires then
      match ResolveZone(zones, b)
      case Some(zone) => [Detection(b, zone, DirectionOf(zone))]
      case None => []
    else []
  }

  /** The zones `initCamera` falls back to: they carry no `enabled` flag. */
  const FallbackZones: Zones := Zones(Zone(false, 0, 200, 300, 100), Zone(false, 500, 200, 300, 100))

  /** With the fallback zones no box is ever placed in a zone, so the simulated detector never reports anything. */
  lemma FallbackZonesNeverMatch(fires: bool, b: Box)
    ensures ResolveZone(FallbackZones, b).None?
    ensures Simulate(FallbackZones, fires, b) == []
  {
  }

  /** A camera of this service. The source's `type` may be missing or another string: `kind` is `None` then. */
  datatype Camera = Camera(id: string, name: string, kind: Option<CameraType>, zones: Zones)

  datatype Event =
    | CameraInitialized(cameraId: string)
    | WrongWay(camera: string, message: string, timestamp: nat)
    | PersonDetected(cameraId: string, detection: Detection, newCount: nat)

  datatype Counter = Counter(cameras: map<string, Camera>, active: bool, ticking: bool, count: nat, events: seq<Event>)

  /** Whether a detection at a camera raises the alarm: its type is the opposite of the crossing's direction. */
  predicate WrongWayAt(c: Camera, d: Direction) {
    c.kind.Some? && CounterService.WrongDirection(c.kind.value, d)
  }

  function WrongWayMessage(d: Direction): string {
    if d == Out then "Person using entry as exit" else "Person using exit as entry"
  }

  /**
   * `handlePersonDetection`: nothing for an unknown camera. Otherwise an alarm when the
   * crossing is against the camera's type, then the count moves (up on `in`, down but
   * not below zero on `out`), then one `person_detected` carrying the new count.
   */
  function Detected(s: Counter, id: string, det: Detection, now: nat): (r: Counter)
    ensures id !in s.cameras ==> r == s
    ensures r.cameras == s.cameras && r.active == s.active && r.ticking == s.ticking
    ensures id in s.cameras ==>
              && r.count == CounterService.Apply(s.count, det.direction)
              && |r.events| > |s.events| && r.events[|r.events| - 1] == PersonDetected(id, det, r.count)
              && (WrongWayAt(s.cameras[id], det.direction) ==>
                    r.events == s.events + [WrongWay(s.cameras[id].name, WrongWayMessage(det.direction), now), PersonDetected(id, det, r.count)])
              && (!WrongWayAt(s.cameras[id], det.direction) ==> r.events == s.events + [PersonDetected(id, det, r.count)])
  {
    if id !in s.cameras then s
    else
      var c := s.cameras[id];
      var alarm := if WrongWayAt(c, det.direction) then [WrongWay(c.name, WrongWayMessage(det.direction), now)] else [];
      var count := CounterService.Apply(s.count, det.direction);
      s.(count := count, events := s.events + alarm + [PersonDetected(id, det, count)])
  }

  /** A camera whose type is `both` or unset never raises the alarm, in either direction. */
  lemma NoAlarmWithoutRole(s: Counter, id: string, det: Detection, now: nat)
    requires id in s.cameras && (s.cameras[id].kind == Some(BothCamera) || s.cameras[id].kind.None?)
    ensures Detected(s, id, det, now).events == s.events + [PersonDetected(id, det, Detected(s, id, det, now).count)]
  {
  }

  /** The counter after handling a sequence of detections, each tagged with its camera. */
  function DetectedAll(s: Counter, dets: seq<(string, Detection)>, now: nat): (r: Counter)
    ensures r.cameras == s.cameras
    decreases |dets|
  {
    if dets == [] then s
    else
      var p := dets[|dets| - 1];
      Detected(DetectedAll(s, dets[..|dets| - 1], now), p.0, p.1, now)
  }

  function Directions(dets: seq<(string, Detection)>): seq<Direction>
    decreases |dets|
  {
    if dets == [] then [] else Directions(dets[..|dets| - 1]) + [dets[|dets| - 1].1.direction]
  }

  /**
   * Over detections at known cameras, `personCount` is the clamped running count of
   * their directions: it never goes negative, and it is exact while no exit meets an
   * empty count.
   */
  lemma {:induction false} DetectedAllCount(s: Counter, dets: seq<(string, Detection)>, now: nat)
    requires forall i :: 0 <= i < |dets| ==> dets[i].0 in s.cameras
    ensures DetectedAll(s, dets, now).count == CounterService.ClampedRun(s.count, Directions(dets))
    decreases |dets|
  {
    if dets != [] {
      var init := dets[..|dets| - 1];
      DetectedAllCount(s, init, now);
      CounterService.ClampedRunSnoc(s.count, Directions(init), dets[|dets| - 1].1.direction);
    }
  }

  class OpenCvPersonCounter {
    var cameras: map<string, Camera>
    var detectionActive: bool
    /** Whether the 100 ms detection interval is scheduled. */
    var ticking: bool
    var personCount: nat
    /** Everything emitted so far, in order. */
    var events: seq<Event>

    function State(): Counter
      reads this
    {
      Counter(cameras, detectionActive, ticking, personCount, events)
    }

    constructor ()
      ensures State() == Counter(map[], false, false, 0, [])
    {
      cameras := map[];
      detectionActive, ticking := false, false;
      personCount := 0;
      events := [];
    }

    /** `initCamera`: the camera is (re)defined with the given zones, or the fallback zones when none are given. */
    method InitCamera(id: string, name: string, kind: Option<CameraType>, zones: Option<Zones>)
      modifies this
      ensures cameras == old(cameras)[id := Camera(id, name, kind, if zones.Some? then zones.value else FallbackZones)]
      ensures events == old(events) + [CameraInitialized(id)]
      ensures detectionActive == old(detectionActive) && ticking == old(ticking) && personCount == old(personCount)
    {
      cameras := cameras[id := Camera(id, name, kind, if zones.Some? then zones.value else FallbackZones)];
      events := events + [CameraInitialized(id)];
    }

    /** `startDetection`: a no-op while active; otherwise sets the flag and schedules the interval. */
    method StartDetection()
      modifies this
      ensures detectionActive && ticking == (old(ticking) || !old(detectionActive))
      ensures old(detectionActive) ==> State() == old(State())
      ensures cameras == old(cameras) && personCount == old(personCount) && events == old(events)
    {
      if detectionActive {
        return;
      }
      detectionActive := true;
      ticking := true;
    }

    /** `stopDetection`: clears the flag and cancels the interval, whatever the state was. */
    method StopDetection()
      modifies this
      ensures !detectionActive && !ticking
      ensures cameras == old(cameras) && personCount == old(personCount) && events == old(events)
    {
      detectionActive := false;
      ticking := false;
    }

    method HandlePersonDetection(id: string, det: Detection, now: nat)
      modifies this
      ensures State() == Detected(old(State()), id, det, now)
    {
      if id !in cameras {
        return;
      }
      var camera := cameras[id];
      if camera.kind == Some(EntryCamera) && det.direction == Out {
        events := events + [WrongWay(camera.name, "Person using entry as exit", now)];
      } else if camera.kind == Some(ExitCamera) && det.direction == In {
        events := events + [WrongWay(camera.name, "Person using exit as entry", now)];
      }
      if det.direction == In {
        personCount := personCount + 1;
      } else {
        personCount := if personCount == 0 then 0 else personCount - 1;
      }
      events := events + [PersonDetected(id, det, personCount)];
    }
  }
}

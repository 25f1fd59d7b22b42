/**
 * The counting aggregator (opencv-person-counter/server/person-counter-service.js).
 * It subscribes to the TCP camera server's `camera_registered`, `person_entered`,
 * `person_exited` and `camera_status_changed` events and keeps:
 *   - a global `totalCount` that an exit never takes below zero;
 *   - the daily in/out statistics;
 *   - a second per-camera map with `todayIn`/`todayOut`/`current`;
 *   - the wrong-direction alarm rule and a newest-first alarm log capped at 50.
 *
 * As in the server module, every handler is a pure transition on `Service`, and the
 * class `PersonCounterService` performs it in place. The class owns its TCP server and
 * hands the events each server call emits to its handlers, in emission order.
 */
module CounterService {
  import opened Wrappers
  import opened Types
  import opened Framing
  import opened CameraServer
  import opened AlarmLog

  /** The service's own record of a camera, created on `camera_registered`. */
  datatype ServiceCamera = ServiceCamera(
    id: CameraId,
    name: string,
    location: string,
    status: Status,
    kind: CameraType,
    resolution: string,
    todayIn: nat,
    todayOut: nat,
    current: nat,
    sensitivity: real,
    minPersonSize: int,
    maxPersonSize: int,
    zones: Zones,
    lastSeen: nat)

  /** What the service emits to its own listeners (the WebSocket broadcast layer). */
  datatype Notification =
    | CountUpdate(total: nat, todayIn: nat, todayOut: nat)
    | CameraUpdate(cameras: seq<ServiceCamera>)
    | AlarmCreated(alarm: Alarm)

  /**
   * The service's state: `totalCount`, `dailyStats`, the `cameras` Map (insertion
   * order `order`), the alarm log, and every notification emitted so far.
   */
  datatype Service = Service(
    total: nat,
    dailyIn: nat,
    dailyOut: nat,
    cameras: map<CameraId, ServiceCamera>,
    order: seq<CameraId>,
    alarms: seq<Alarm>,
    notes: seq<Notification>)

  const EmptyService: Service := Service(0, 0, 0, map[], [], [], [])

  ghost predicate WellFormedService(s: Service) {
    && Distinct(s.order)
    && (forall id :: id in s.cameras <==> id in s.order)
    && (forall id :: id in s.cameras ==> s.cameras[id].id == id)
    && |s.alarms| <= AlarmCap
  }

  // ---------------------------------------------------------------- clamped counting

  /** `Math.max(0, n - 1)` on a count that is never negative. */
  function Decrement(n: nat): nat {
    if n == 0 then 0 else n - 1
  }

  /** One crossing applied to an occupancy count: an entry adds one, an exit removes one but never below zero. */
  function Apply(t: nat, d: Direction): nat {
    if d == In then t + 1 else Decrement(t)
  }

  /** An occupancy count after a run of crossings, clamped at zero after every exit. */
  function ClampedRun(t: nat, dirs: seq<Direction>): nat
    decreases |dirs|
  {
    if dirs == [] then t else Apply(ClampedRun(t, dirs[..|dirs| - 1]), dirs[|dirs| - 1])
  }

  lemma ClampedRunSnoc(t: nat, dirs: seq<Direction>, d: Direction)
    ensures ClampedRun(t, dirs + [d]) == Apply(ClampedRun(t, dirs), d)
  {
    assert (dirs + [d])[..|dirs|] == dirs;
  }

  lemma CountSnoc(dirs: seq<Direction>, x: Direction, d: Direction)
    ensures Count(dirs + [x], d) == Count(dirs, d) + (if x == d then 1 else 0)
  {
    assert (dirs + [x])[..|dirs|] == dirs;
  }

  /**
   * The clamp only ever adds: the count is at least the start plus the entries minus
   * the exits, and at most the start plus the entries.
   */
  lemma {:induction false} ClampedRunBounds(t: nat, dirs: seq<Direction>)
    ensures t + Count(dirs, In) - Count(dirs, Out) <= ClampedRun(t, dirs) <= t + Count(dirs, In)
    decreases |dirs|
  {
    if dirs != [] {
      ClampedRunBounds(t, dirs[..|dirs| - 1]);
    }
  }

  /** No exit ever finds the count at zero: the start plus the entries minus the exits, up to each point. */
  ghost predicate NeverUnderflows(t: nat, dirs: seq<Direction>) {
    forall k :: 0 <= k <= |dirs| ==> Count(dirs[..k], Out) <= t + Count(dirs[..k], In)
  }

  /** When no exit meets an empty count, the clamp never acts and the count is exact. */
  lemma {:induction false} ClampedRunExact(t: nat, dirs: seq<Direction>)
    requires NeverUnderflows(t, dirs)
    ensures ClampedRun(t, dirs) == t + Count(dirs, In) - Count(dirs, Out)
    decreases |dirs|
  {
    if dirs != [] {
      var init := dirs[..|dirs| - 1];
      assert NeverUnderflows(t, init) by {
        forall k | 0 <= k <= |init| ensures Count(init[..k], Out) <= t + Count(init[..k], In) {
          assert init[..k] == dirs[..k];
        }
      }
      ClampedRunExact(t, init);
      assert dirs[..|dirs|] == dirs;
    }
  }

  /** Running one run and then another is running them joined. */
  lemma {:induction false} ClampedRunAppend(t: nat, a: seq<Direction>, b: seq<Direction>)
    ensures ClampedRun(t, a + b) == ClampedRun(ClampedRun(t, a), b)
    decreases |b|
  {
    if b == [] {
      assert a + b == a;
    } else {
      var init := b[..|b| - 1];
      ClampedRunAppend(t, a, init);
      assert (a + b)[..|a + b| - 1] == a + init;
    }
  }

  function Repeat(d: Direction, n: nat): (r: seq<Direction>)
    ensures |r| == n && forall i :: 0 <= i < n ==> r[i] == d
  {
    if n == 0 then [] else Repeat(d, n - 1) + [d]
  }

  lemma {:induction false} ClampedRunRepeat(t: nat, d: Direction, n: nat)
    ensures ClampedRun(t, Repeat(d, n)) == if d == In then t + n else if n <= t then t - n else 0
  {
    if n > 0 {
      ClampedRunRepeat(t, d, n - 1);
      assert Repeat(d, n)[..n - 1] == Repeat(d, n - 1);
    }
  }

  /** `n` entries followed by `m` exits leave `max(0, t + n - m)`. */
  lemma EntriesThenExits(t: nat, n: nat, m: nat)
    ensures ClampedRun(t, Repeat(In, n) + Repeat(Out, m)) == if m <= t + n then t + n - m else 0
  {
    ClampedRunAppend(t, Repeat(In, n), Repeat(Out, m));
    ClampedRunRepeat(t, In, n);
    ClampedRunRepeat(t + n, Out, m);
  }

  // ---------------------------------------------------------------- camera list

  /** `getCameraData`: the service's camera records in Map insertion order. */
  function CameraData(cams: map<CameraId, ServiceCamera>, order: seq<CameraId>): seq<ServiceCamera>
    decreases |order|
  {
    if order == [] then []
    else
      var id := order[|order| - 1];
      CameraData(cams, order[..|order| - 1]) + (if id in cams then [cams[id]] else [])
  }

  /** Over a well-formed order, the list holds exactly one record per key, in order. */
  lemma {:induction false} CameraDataInOrder(cams: map<CameraId, ServiceCamera>, order: seq<CameraId>)
    requires forall i :: 0 <= i < |order| ==> order[i] in cams
    ensures |CameraData(cams, order)| == |order|
    ensures forall i :: 0 <= i < |order| ==> CameraData(cams, order)[i] == cams[order[i]]
    decreases |order|
  {
    if order != [] {
      CameraDataInOrder(cams, order[..|order| - 1]);
    }
  }

  // ---------------------------------------------------------------- registration and status

  /** The record `camera_registered` creates: default name, location, geometry and size limits, counters zero. */
  function FreshCamera(id: CameraId, now: nat): ServiceCamera {
    ServiceCamera(id, "Kamera " + id, "Automatisch erkannt", Online, BothCamera, "1920x1080",
                  0, 0, 0, 0.7, 50, 200, DefaultZones, now)
  }

  /**
   * `camera_registered`: the record for `id` is replaced by a fresh one, whatever the
   * service knew of it, and the whole camera list is broadcast.
   */
  function OnRegistered(s: Service, id: CameraId, now: nat): (r: Service)
    ensures WellFormedService(s) ==> WellFormedService(r)
    ensures r.cameras.Keys == s.cameras.Keys + {id}
    ensures r.cameras[id].todayIn == 0 && r.cameras[id].todayOut == 0 && r.cameras[id].current == 0
    ensures r.cameras[id].kind == BothCamera && r.cameras[id].status == Online
    ensures r.cameras[id] == FreshCamera(id, now)
    ensures && r.cameras[id].id == id && r.cameras[id].name == "Kamera " + id
            && r.cameras[id].location == "Automatisch erkannt" && r.cameras[id].resolution == "1920x1080"
            && r.cameras[id].sensitivity == 0.7 && r.cameras[id].minPersonSize == 50
            && r.cameras[id].maxPersonSize == 200 && r.cameras[id].zones == DefaultZones
            && r.cameras[id].lastSeen == now
    ensures r.order == if id in s.cameras then s.order else s.order + [id]
    ensures forall other :: other in s.cameras && other != id ==> r.cameras[other] == s.cameras[other]
    ensures r.total == s.total && r.dailyIn == s.dailyIn && r.dailyOut == s.dailyOut && r.alarms == s.alarms
    ensures r.notes == s.notes + [CameraUpdate(CameraData(r.cameras, r.order))]
  {
    var order := if id in s.cameras then s.order else s.order + [id];
    var r := s.(cameras := s.cameras[id := FreshCamera(id, now)], order := order);
    assert WellFormedService(s) ==> forall x :: x in r.order <==> x in s.order || x == id;
    r.(notes := s.notes + [CameraUpdate(CameraData(r.cameras, r.order))])
  }

  /** `camera_status_changed`: a known camera takes the new status and the list is broadcast; otherwise nothing. */
  function OnStatusChanged(s: Service, id: CameraId, status: Status): (r: Service)
    ensures WellFormedService(s) ==> WellFormedService(r)
    ensures id !in s.cameras ==> r == s
    ensures id in s.cameras ==>
              && r.cameras == s.cameras[id := s.cameras[id].(status := status)]
              && r.notes == s.notes + [CameraUpdate(CameraData(r.cameras, r.order))]
    ensures r.total == s.total && r.dailyIn == s.dailyIn && r.dailyOut == s.dailyOut
    ensures r.order == s.order && r.alarms == s.alarms
  {
    if id !in s.cameras then s
    else
      var cameras := s.cameras[id := s.cameras[id].(status := status)];
      s.(cameras := cameras, notes := s.notes + [CameraUpdate(CameraData(cameras, s.order))])
  }

  // ---------------------------------------------------------------- crossings

  /** A crossing against a camera's role: an entry at an exit camera, or an exit at an entry camera. */
  predicate WrongDirection(kind: CameraType, d: Direction) {
    (kind == ExitCamera && d == In) || (kind == EntryCamera && d == Out)
  }

  /**
   * The alarm `createAlarm` records for a wrong-direction crossing at the camera named
   * `name`: its id is the decimal text of the current time, which two alarms in the
   * same millisecond share.
   */
  function MisuseAlarm(name: string, d: Direction, now: nat): Alarm {
    var description :=
      if d == In then "Person nutzt Ausgang " + name + " als Eingang"
      else "Person nutzt Eingang " + name + " als Ausgang";
    Alarm(DecimalString(now), "Falsche Bereichsnutzung", description, name, WrongDirectionAlarm, now, Warning)
  }

  /** Whether a crossing at `id` raises an alarm: the camera is known and the crossing is against its role. */
  predicate Alarmed(s: Service, id: CameraId, d: Direction) {
    id in s.cameras && WrongDirection(s.cameras[id].kind, d)
  }

  /** A known camera's counters after one crossing. */
  function Crossed(c: ServiceCamera, d: Direction): ServiceCamera {
    if d == In then c.(todayIn := c.todayIn + 1, current := c.current + 1)
    else c.(todayOut := c.todayOut + 1, current := Decrement(c.current))
  }

  /**
   * `person_entered` (`d == In`) and `person_exited` (`d == Out`). The global total and
   * the daily statistics move even when the camera is unknown to the service. A known
   * camera's counters move too, and a crossing against its role records an alarm
   * before the count update. Every crossing ends with exactly one `count_update`
   * carrying the values after the update.
   */
  function OnCrossing(s: Service, id: CameraId, d: Direction, now: nat): (r: Service)
    ensures WellFormedService(s) ==> WellFormedService(r)
    ensures r.total == Apply(s.total, d)
    ensures r.dailyIn == s.dailyIn + (if d == In then 1 else 0)
    ensures r.dailyOut == s.dailyOut + (if d == Out then 1 else 0)
    ensures r.order == s.order && r.cameras.Keys == s.cameras.Keys
    ensures forall other :: other in s.cameras && other != id ==> r.cameras[other] == s.cameras[other]
    ensures id in s.cameras ==>
              && r.cameras == s.cameras[id := Crossed(s.cameras[id], d)]
              && r.cameras[id].todayIn == s.cameras[id].todayIn + (if d == In then 1 else 0)
              && r.cameras[id].todayOut == s.cameras[id].todayOut + (if d == Out then 1 else 0)
              && r.cameras[id].todayIn + r.cameras[id].todayOut == s.cameras[id].todayIn + s.cameras[id].todayOut + 1
              && r.cameras[id].current == Apply(s.cameras[id].current, d)
              && r.cameras[id].kind == s.cameras[id].kind
    ensures Alarmed(s, id, d) ==>
              && r.alarms == Record(s.alarms, MisuseAlarm(s.cameras[id].name, d, now))
              && r.notes == s.notes + [AlarmCreated(MisuseAlarm(s.cameras[id].name, d, now))] + [CountUpdate(r.total, r.dailyIn, r.dailyOut)]
    ensures !Alarmed(s, id, d) ==>
              r.alarms == s.alarms && r.notes == s.notes + [CountUpdate(r.total, r.dailyIn, r.dailyOut)]
  {
    var total := Apply(s.total, d);
    var dailyIn := if d == In then s.dailyIn + 1 else s.dailyIn;
    var dailyOut := if d == Out then s.dailyOut + 1 else s.dailyOut;
    var count := CountUpdate(total, dailyIn, dailyOut);
    if id !in s.cameras then
      Service(total, dailyIn, dailyOut, s.cameras, s.order, s.alarms, s.notes + [count])
    else
      var c := Crossed(s.cameras[id], d);
      var cameras := s.cameras[id := c];
      if WrongDirection(c.kind, d) then
        var alarm := MisuseAlarm(c.name, d, now);
        Service(total, dailyIn, dailyOut, cameras, s.order, Record(s.alarms, alarm), s.notes + [AlarmCreated(alarm)] + [count])
      else
        Service(total, dailyIn, dailyOut, cameras, s.order, s.alarms, s.notes + [count])
  }

  /** A camera of type `both` takes crossings in either direction without an alarm. */
  lemma BothNeverAlarms(s: Service, id: CameraId, d: Direction, now: nat)
    requires id in s.cameras && s.cameras[id].kind == BothCamera
    ensures OnCrossing(s, id, d, now).alarms == s.alarms
    ensures forall n :: n in OnCrossing(s, id, d, now).notes[|s.notes|..] ==> !n.AlarmCreated?
  {
    var r := OnCrossing(s, id, d, now);
    assert r.notes[|s.notes|..] == [CountUpdate(r.total, r.dailyIn, r.dailyOut)];
  }

  /**
   * An alarm is created exactly when the camera is known and the crossing is against
   * its role: an entry at an exit camera or an exit at an entry camera.
   */
  lemma AlarmExactlyOnWrongDirection(s: Service, id: CameraId, d: Direction, now: nat)
    ensures (exists n :: n in OnCrossing(s, id, d, now).notes[|s.notes|..] && n.AlarmCreated?)
            <==> (id in s.cameras && ((s.cameras[id].kind == ExitCamera && d == In) || (s.cameras[id].kind == EntryCamera && d == Out)))
  {
    var r := OnCrossing(s, id, d, now);
    var count := CountUpdate(r.total, r.dailyIn, r.dailyOut);
    if Alarmed(s, id, d) {
      var a := AlarmCreated(MisuseAlarm(s.cameras[id].name, d, now));
      assert r.notes[|s.notes|..] == [a, count];
      assert a in r.notes[|s.notes|..];
    } else {
      assert r.notes[|s.notes|..] == [count];
    }
  }

  // ---------------------------------------------------------------- event handling

  /** The handler the server event runs; `detections_received` has no subscriber here. */
  function Handle(s: Service, e: ServerEvent, now: nat): (r: Service)
    ensures WellFormedService(s) ==> WellFormedService(r)
  {
    match e
    case CameraRegistered(id) => OnRegistered(s, id, now)
    case PersonEntered(id, _) => OnCrossing(s, id, In, now)
    case PersonExited(id, _) => OnCrossing(s, id, Out, now)
    case CameraStatusChanged(id, status) => OnStatusChanged(s, id, status)
    case DetectionsReceived(_, _, _) => s
  }

  /** The service after handling a sequence of server events, each to completion, in order. */
  function HandleAll(s: Service, events: seq<ServerEvent>, now: nat): (r: Service)
    ensures WellFormedService(s) ==> WellFormedService(r)
    decreases |events|
  {
    if events == [] then s else Handle(HandleAll(s, events[..|events| - 1], now), events[|events| - 1], now)
  }

  /**
   * Over any sequence of server events, the total is the clamped running count of the
   * crossings it reports, and the daily statistics grow by exactly its entries and its
   * exits.
   */
  lemma {:induction false} HandleAllCounts(s: Service, events: seq<ServerEvent>, now: nat)
    ensures HandleAll(s, events, now).total == ClampedRun(s.total, EventDirections(events))
    ensures HandleAll(s, events, now).dailyIn == s.dailyIn + Count(EventDirections(events), In)
    ensures HandleAll(s, events, now).dailyOut == s.dailyOut + Count(EventDirections(events), Out)
    decreases |events|
  {
    if events != [] {
      var init, e := events[..|events| - 1], events[|events| - 1];
      HandleAllCounts(s, init, now);
      var dirs := EventDirections(init);
      if e.PersonEntered? {
        assert EventDirections(events) == dirs + [In];
        ClampedRunSnoc(s.total, dirs, In);
        CountSnoc(dirs, In, In);
        CountSnoc(dirs, In, Out);
      } else if e.PersonExited? {
        assert EventDirections(events) == dirs + [Out];
        ClampedRunSnoc(s.total, dirs, Out);
        CountSnoc(dirs, Out, In);
        CountSnoc(dirs, Out, Out);
      } else {
        assert EventDirections(events) == dirs + [] == dirs;
      }
    }
  }

  /** The events of one camera's detection handling: crossings and `detections_received`, all for that camera. */
  predicate OneCameraCrossings(id: CameraId, events: seq<ServerEvent>) {
    forall e :: e in events ==> e.cameraId == id && (e.PersonEntered? || e.PersonExited? || e.DetectionsReceived?)
  }

  /** A known camera's counters after a run of crossings: entries and exits added, `current` clamped at zero. */
  function Tallied(c: ServiceCamera, dirs: seq<Direction>): ServiceCamera {
    c.(todayIn := c.todayIn + Count(dirs, In), todayOut := c.todayOut + Count(dirs, Out),
       current := ClampedRun(c.current, dirs))
  }

  lemma TalliedSnoc(c: ServiceCamera, dirs: seq<Direction>, d: Direction)
    ensures Tallied(c, dirs + [d]) == Crossed(Tallied(c, dirs), d)
  {
    ClampedRunSnoc(c.current, dirs, d);
    CountSnoc(dirs, d, In);
    CountSnoc(dirs, d, Out);
  }

  /** One event of a camera's detection handling, applied to a camera whose counters already hold `dirs`. */
  lemma CameraStep(t: Service, id: CameraId, e: ServerEvent, now: nat, m: map<CameraId, ServiceCamera>, c: ServiceCamera,
                   dirs: seq<Direction>)
    requires t.cameras == m[id := Tallied(c, dirs)]
    requires e.cameraId == id && (e.PersonEntered? || e.PersonExited? || e.DetectionsReceived?)
    ensures Handle(t, e, now).cameras
              == m[id := Tallied(c, dirs + (if e.PersonEntered? then [In] else if e.PersonExited? then [Out] else []))]
  {
    if e.PersonEntered? {
      assert Handle(t, e, now) == OnCrossing(t, id, In, now);
      TalliedSnoc(c, dirs, In);
    } else if e.PersonExited? {
      assert Handle(t, e, now) == OnCrossing(t, id, Out, now);
      TalliedSnoc(c, dirs, Out);
    } else {
      assert Handle(t, e, now) == t;
      assert dirs + [] == dirs;
    }
  }

  /**
   * For a camera the service knows, events that only report that camera's crossings
   * move its `todayIn`/`todayOut` by the entries and exits and its `current` as a
   * clamped running count; nothing else about it, and no other camera, changes.
   */
  lemma {:induction false} HandleAllCamera(s: Service, id: CameraId, events: seq<ServerEvent>, now: nat)
    requires id in s.cameras && OneCameraCrossings(id, events)
    ensures HandleAll(s, events, now).cameras == s.cameras[id := Tallied(s.cameras[id], EventDirections(events))]
    decreases |events|
  {
    var c := s.cameras[id];
    if events == [] {
      assert Tallied(c, []) == c;
      assert s.cameras[id := c] == s.cameras;
    } else {
      var init, e := events[..|events| - 1], events[|events| - 1];
      assert OneCameraCrossings(id, init) by {
        forall x | x in init ensures x in events { }
      }
      HandleAllCamera(s, id, init, now);
      assert e in events;
      CameraStep(HandleAll(s, init, now), id, e, now, s.cameras, c, EventDirections(init));
    }
  }

  /**
   * One detection batch end to end: for a camera the server knows, the service's total
   * becomes the clamped running count over the batch's entry and exit items, its daily
   * statistics grow by their numbers, and they grow exactly as the server's own
   * per-camera counters do.
   */
  lemma DetectionBatchCounts(r: Registry, s: Service, id: CameraId, items: seq<DetectionItem>, now: nat)
    requires id in r.cameras
    ensures var t := HandleAll(s, RecordDetections(r, id, items, now).events, now);
            && t.total == ClampedRun(s.total, ItemDirections(items))
            && t.dailyIn - s.dailyIn == RecordDetections(r, id, items, now).registry.cameras[id].todayIn - r.cameras[id].todayIn
            && t.dailyOut - s.dailyOut == RecordDetections(r, id, items, now).registry.cameras[id].todayOut - r.cameras[id].todayOut
  {
    HandleAllCounts(s, RecordDetections(r, id, items, now).events, now);
  }

  /**
   * The same batch as seen by a camera the service knows: its `todayIn`/`todayOut` move
   * in step with the server's record, and `current` is the clamped running count.
   */
  lemma DetectionBatchCamera(r: Registry, s: Service, id: CameraId, items: seq<DetectionItem>, now: nat)
    requires id in r.cameras && id in s.cameras
    ensures var t := HandleAll(s, RecordDetections(r, id, items, now).events, now);
            && id in t.cameras
            && t.cameras[id].todayIn - s.cameras[id].todayIn == RecordDetections(r, id, items, now).registry.cameras[id].todayIn - r.cameras[id].todayIn
            && t.cameras[id].todayOut - s.cameras[id].todayOut == RecordDetections(r, id, items, now).registry.cameras[id].todayOut - r.cameras[id].todayOut
            && t.cameras[id].current == ClampedRun(s.cameras[id].current, ItemDirections(items))
  {
    HandleAllCamera(s, id, RecordDetections(r, id, items, now).events, now);
  }

  // ---------------------------------------------------------------- reset

  function Zeroed(c: ServiceCamera): ServiceCamera {
    c.(todayIn := 0, todayOut := 0, current := 0)
  }

  /**
   * `resetCounter`: the global counters and every camera's `todayIn`/`todayOut`/`current`
   * become zero; cameras keep everything else, the alarm log is untouched, and one
   * `count_update` of zeros goes out.
   */
  function Reset(s: Service): (r: Service)
    ensures WellFormedService(s) ==> WellFormedService(r)
    ensures r.total == 0 && r.dailyIn == 0 && r.dailyOut == 0
    ensures r.cameras.Keys == s.cameras.Keys && r.order == s.order && r.alarms == s.alarms
    ensures forall id :: id in r.cameras ==>
              r.cameras[id].todayIn == 0 && r.cameras[id].todayOut == 0 && r.cameras[id].current == 0
              && r.cameras[id] == s.cameras[id].(todayIn := 0, todayOut := 0, current := 0)
    ensures r.notes == s.notes + [CountUpdate(0, 0, 0)]
  {
    s.(total := 0, dailyIn := 0, dailyOut := 0,
       cameras := map id | id in s.cameras :: Zeroed(s.cameras[id]),
       notes := s.notes + [CountUpdate(0, 0, 0)])
  }

  /** The `cameras.forEach` loop of `resetCounter` over the ids `ids`. */
  function ZeroAll(cams: map<CameraId, ServiceCamera>, ids: seq<CameraId>): map<CameraId, ServiceCamera>
    decreases |ids|
  {
    if ids == [] then cams
    else
      var m := ZeroAll(cams, ids[..|ids| - 1]);
      var id := ids[|ids| - 1];
      if id in m then m[id := Zeroed(m[id])] else m
  }

  lemma ZeroAllPrefix(cams: map<CameraId, ServiceCamera>, ids: seq<CameraId>, i: nat)
    requires i < |ids|
    ensures var m := ZeroAll(cams, ids[..i]);
            ZeroAll(cams, ids[..i + 1]) == if ids[i] in m then m[ids[i] := Zeroed(m[ids[i]])] else m
  {
    assert ids[..i + 1][..i] == ids[..i];
  }

  /** The loop zeroes exactly the cameras under the ids it visits, whatever their order or repetitions. */
  lemma {:induction false} ZeroAllZeroes(cams: map<CameraId, ServiceCamera>, ids: seq<CameraId>)
    ensures ZeroAll(cams, ids).Keys == cams.Keys
    ensures forall id :: id in cams ==> ZeroAll(cams, ids)[id] == if id in ids then Zeroed(cams[id]) else cams[id]
    decreases |ids|
  {
    if ids != [] {
      var init := ids[..|ids| - 1];
      ZeroAllZeroes(cams, init);
      assert forall id :: id in ids <==> id in init || id == ids[|ids| - 1];
    }
  }

  /** Over a well-formed service's own camera order, the loop is `Reset`'s camera map. */
  lemma ZeroAllIsReset(s: Service)
    requires WellFormedService(s)
    ensures ZeroAll(s.cameras, s.order) == Reset(s).cameras
  {
    ZeroAllZeroes(s.cameras, s.order);
  }

  /**
   * After a reset, the daily statistics are exactly the entries and exits reported
   * since, and the total is their clamped running count from zero.
   */
  lemma CountsSinceReset(s: Service, events: seq<ServerEvent>, now: nat)
    ensures HandleAll(Reset(s), events, now).total == ClampedRun(0, EventDirections(events))
    ensures HandleAll(Reset(s), events, now).dailyIn == Count(EventDirections(events), In)
    ensures HandleAll(Reset(s), events, now).dailyOut == Count(EventDirections(events), Out)
  {
    HandleAllCounts(Reset(s), events, now);
  }

  // ---------------------------------------------------------------- configuration

  /** The keys a configuration request may carry; an absent key is `None`. */
  datatype CameraConfig = CameraConfig(
    name: Option<string>,
    location: Option<string>,
    status: Option<Status>,
    kind: Option<CameraType>,
    resolution: Option<string>,
    sensitivity: Option<real>,
    minPersonSize: Option<int>,
    maxPersonSize: Option<int>,
    zones: Option<Zones>)

  function Or<T>(o: Option<T>, otherwise: T): T {
    if o.Some? then o.value else otherwise
  }

  /** `Object.assign(camera, config)`: the supplied keys are overwritten, the rest kept. */
  function Merge(c: ServiceCamera, cfg: CameraConfig): ServiceCamera {
    c.(name := Or(cfg.name, c.name), location := Or(cfg.location, c.location),
       status := Or(cfg.status, c.status), kind := Or(cfg.kind, c.kind),
       resolution := Or(cfg.resolution, c.resolution), sensitivity := Or(cfg.sensitivity, c.sensitivity),
       minPersonSize := Or(cfg.minPersonSize, c.minPersonSize),
       maxPersonSize := Or(cfg.maxPersonSize, c.maxPersonSize), zones := Or(cfg.zones, c.zones))
  }

  /**
   * `Object.assign` key by key: every supplied key takes the supplied value, every absent
   * key keeps the camera's value, and the id, counters and last-seen time are never touched.
   */
  lemma MergeKeys(c: ServiceCamera, cfg: CameraConfig)
    ensures var n := Merge(c, cfg);
            && n.id == c.id && n.todayIn == c.todayIn && n.todayOut == c.todayOut && n.current == c.current
            && n.lastSeen == c.lastSeen
            && (cfg.name.Some? ==> n.name == cfg.name.value) && (cfg.name.None? ==> n.name == c.name)
            && (cfg.location.Some? ==> n.location == cfg.location.value) && (cfg.location.None? ==> n.location == c.location)
            && (cfg.status.Some? ==> n.status == cfg.status.value) && (cfg.status.None? ==> n.status == c.status)
            && (cfg.kind.Some? ==> n.kind == cfg.kind.value) && (cfg.kind.None? ==> n.kind == c.kind)
            && (cfg.resolution.Some? ==> n.resolution == cfg.resolution.value)
            && (cfg.resolution.None? ==> n.resolution == c.resolution)
            && (cfg.sensitivity.Some? ==> n.sensitivity == cfg.sensitivity.value)
            && (cfg.sensitivity.None? ==> n.sensitivity == c.sensitivity)
            && (cfg.minPersonSize.Some? ==> n.minPersonSize == cfg.minPersonSize.value)
            && (cfg.minPersonSize.None? ==> n.minPersonSize == c.minPersonSize)
            && (cfg.maxPersonSize.Some? ==> n.maxPersonSize == cfg.maxPersonSize.value)
            && (cfg.maxPersonSize.None? ==> n.maxPersonSize == c.maxPersonSize)
            && (cfg.zones.Some? ==> n.zones == cfg.zones.value) && (cfg.zones.None? ==> n.zones == c.zones)
  {
  }

  /**
   * `updateCameraConfig` on the service's side: an unknown id changes nothing; a known
   * camera takes exactly the supplied keys, keeps its id, counters and last-seen time,
   * and the camera list is broadcast.
   */
  function UpdateConfig(s: Service, id: CameraId, cfg: CameraConfig): (r: Service)
    ensures WellFormedService(s) ==> WellFormedService(r)
    ensures id !in s.cameras ==> r == s
    ensures id in s.cameras ==>
              && r.cameras.Keys == s.cameras.Keys
              && var c, n := s.cameras[id], r.cameras[id];
              && (forall other :: other in s.cameras && other != id ==> r.cameras[other] == s.cameras[other])
              && n.id == c.id && n.todayIn == c.todayIn && n.todayOut == c.todayOut && n.current == c.current
              && n.lastSeen == c.lastSeen
              && (cfg.kind.Some? ==> n.kind == cfg.kind.value) && (cfg.kind.None? ==> n.kind == c.kind)
              && (cfg.zones.Some? ==> n.zones == cfg.zones.value) && (cfg.zones.None? ==> n.zones == c.zones)
              && (cfg.name.Some? ==> n.name == cfg.name.value) && (cfg.name.None? ==> n.name == c.name)
              && (cfg.status.Some? ==> n.status == cfg.status.value) && (cfg.status.None? ==> n.status == c.status)
              && n == Merge(c, cfg)
              && r.notes == s.notes + [CameraUpdate(CameraData(r.cameras, r.order))]
    ensures r.total == s.total && r.dailyIn == s.dailyIn && r.dailyOut == s.dailyOut
    ensures r.order == s.order && r.alarms == s.alarms
  {
    if id !in s.cameras then s
    else
      var cameras := s.cameras[id := Merge(s.cameras[id], cfg)];
      s.(cameras := cameras, notes := s.notes + [CameraUpdate(CameraData(cameras, s.order))])
  }

  /** The configuration with no keys changes nothing but broadcasts the list again. */
  lemma EmptyConfigKeepsCamera(s: Service, id: CameraId)
    requires id in s.cameras
    ensures UpdateConfig(s, id, CameraConfig(None, None, None, None, None, None, None, None, None)).cameras == s.cameras
  {
    assert s.cameras[id := s.cameras[id]] == s.cameras;
  }

  /**
   * A camera that registers again loses whatever `updateCameraConfig` had set on it:
   * its record is the same as if the configuration had never been applied.
   */
  lemma ReregisterDiscardsConfig(s: Service, id: CameraId, cfg: CameraConfig, now: nat)
    ensures OnRegistered(UpdateConfig(s, id, cfg), id, now).cameras == OnRegistered(s, id, now).cameras
  {
  }

  /** What `updateCameraConfig` asks of the TCP server: a zone push for a known camera given zones, else nothing. */
  function ForwardZones(r: Registry, known: bool, id: CameraId, cfg: CameraConfig): (t: Registry)
    ensures t.cameras == r.cameras && t.order == r.order
    ensures !known || cfg.zones.None? ==> t == r
    ensures known && cfg.zones.Some? ==> t == PushZones(r, id, cfg.zones.value)
  {
    if known && cfg.zones.Some? then PushZones(r, id, cfg.zones.value) else r
  }

  // ---------------------------------------------------------------- stats

  datatype Stats = Stats(total: nat, todayIn: nat, todayOut: nat, cameras: seq<ServiceCamera>, alarms: seq<Alarm>)

  // ---------------------------------------------------------------- the service object

  class PersonCounterService {
    const tcpServer: TcpCameraServer
    var totalCount: nat
    var dailyIn: nat
    var dailyOut: nat
    var cameras: map<CameraId, ServiceCamera>
    var order: seq<CameraId>
    var alarms: seq<Alarm>
    /** Everything emitted to the service's listeners, in order. */
    var notifications: seq<Notification>

    function State(): Service
      reads this
    {
      Service(totalCount, dailyIn, dailyOut, cameras, order, alarms, notifications)
    }

    ghost predicate Valid()
      reads this, tcpServer
    {
      tcpServer.Valid() && WellFormedService(State())
    }

    /** A new service owns a TCP server on port 8888 and starts with no counts, cameras or alarms. */
    constructor ()
      ensures Valid() && fresh(tcpServer)
      ensures tcpServer.port == DefaultPort && tcpServer.State() == EmptyRegistry && tcpServer.clients == {}
      ensures State() == EmptyService
    {
      tcpServer := new TcpCameraServer(DefaultPort);
      totalCount, dailyIn, dailyOut := 0, 0, 0;
      cameras, order := map[], [];
      alarms, notifications := [], [];
    }

    /** `createAlarm`: prepend, keep the first 50, announce. */
    method CreateAlarm(alarm: Alarm)
      modifies this
      ensures alarms == Record(old(alarms), alarm)
      ensures notifications == old(notifications) + [AlarmCreated(alarm)]
      ensures totalCount == old(totalCount) && dailyIn == old(dailyIn) && dailyOut == old(dailyOut)
      ensures cameras == old(cameras) && order == old(order)
    {
      alarms := [alarm] + alarms;
      if |alarms| > AlarmCap {
        alarms := alarms[..AlarmCap];
      }
      notifications := notifications + [AlarmCreated(alarm)];
    }

    method OnCameraRegistered(id: CameraId, now: nat)
      modifies this
      ensures State() == OnRegistered(old(State()), id, now)
    {
      if id !in cameras {
        order := order + [id];
      }
      cameras := cameras[id := FreshCamera(id, now)];
      notifications := notifications + [CameraUpdate(CameraData(cameras, order))];
    }

    method OnPersonEntered(id: CameraId, now: nat)
      modifies this
      ensures State() == OnCrossing(old(State()), id, In, now)
    {
      totalCount := totalCount + 1;
      dailyIn := dailyIn + 1;
      if id in cameras {
        var camera := cameras[id];
        camera := camera.(todayIn := camera.todayIn + 1, current := camera.current + 1);
        cameras := cameras[id := camera];
        if camera.kind == ExitCamera {
          CreateAlarm(MisuseAlarm(camera.name, In, now));
        }
      }
      notifications := notifications + [CountUpdate(totalCount, dailyIn, dailyOut)];
    }

    method OnPersonExited(id: CameraId, now: nat)
      modifies this
      ensures State() == OnCrossing(old(State()), id, Out, now)
    {
      totalCount := if totalCount == 0 then 0 else totalCount - 1;
      dailyOut := dailyOut + 1;
      if id in cameras {
        var camera := cameras[id];
        camera := camera.(todayOut := camera.todayOut + 1, current := if camera.current == 0 then 0 else camera.current - 1);
        cameras := cameras[id := camera];
        if camera.kind == EntryCamera {
          CreateAlarm(MisuseAlarm(camera.name, Out, now));
        }
      }
      notifications := notifications + [CountUpdate(totalCount, dailyIn, dailyOut)];
    }

    method OnCameraStatusChanged(id: CameraId, status: Status)
      modifies this
      ensures State() == OnStatusChanged(old(State()), id, status)
    {
      if id in cameras {
        cameras := cameras[id := cameras[id].(status := status)];
        notifications := notifications + [CameraUpdate(CameraData(cameras, order))];
      }
    }

    /** Runs the subscribed handler of one server event to completion. */
    method HandleServerEvent(e: ServerEvent, now: nat)
      modifies this
      ensures State() == Handle(old(State()), e, now)
    {
      match e
      case CameraRegistered(id) => OnCameraRegistered(id, now);
      case PersonEntered(id, _) => OnPersonEntered(id, now);
      case PersonExited(id, _) => OnPersonExited(id, now);
      case CameraStatusChanged(id, status) => OnCameraStatusChanged(id, status);
      case DetectionsReceived(_, _, _) =>
    }

    /** The server's events, each handled to completion in emission order. */
    method HandleServerEvents(events: seq<ServerEvent>, now: nat)
      requires Valid()
      modifies this
      ensures Valid()
      ensures State() == HandleAll(old(State()), events, now)
    {
      var i := 0;
      while i < |events|
        invariant 0 <= i <= |events|
        invariant tcpServer.Valid() && WellFormedService(State())
        invariant State() == HandleAll(old(State()), events[..i], now)
      {
        assert events[..i + 1][..i] == events[..i];
        ghost var before := State();
        HandleServerEvent(events[i], now);
        assert State() == Handle(before, events[i], now);
        assert HandleAll(old(State()), events[..i + 1], now) == Handle(before, events[i], now);
        i := i + 1;
      }
      assert events[..|events|] == events;
    }

    /** Bytes arriving from a camera node: the server frames and handles them, the service handles what it emits. */
    method OnCameraData(framer: LineFramer, conn: ConnId, chunk: string, now: nat, decode: string -> Option<CameraMessage>)
      requires Valid() && framer.Valid()
      modifies this, tcpServer, framer
      ensures Valid() && framer.Valid() && tcpServer.clients == old(tcpServer.clients)
      ensures framer.buffer == Feed(old(framer.buffer), chunk).residual
      ensures var step := ProcessLines(old(tcpServer.State()), conn, Feed(old(framer.buffer), chunk).lines, now, decode);
              && tcpServer.State() == step.registry
              && State() == HandleAll(old(State()), step.events, now)
    {
      var events := tcpServer.OnData(framer, conn, chunk, now, decode);
      HandleServerEvents(events, now);
    }

    /** A camera node's socket closes: its cameras go offline on the server, and the service hears of each. */
    method OnCameraClose(conn: ConnId, now: nat)
      requires Valid()
      modifies this, tcpServer
      ensures Valid() && tcpServer.clients == old(tcpServer.clients) - {conn}
      ensures var step := CloseConnection(old(tcpServer.State()), conn, now);
              && tcpServer.State() == step.registry
              && State() == HandleAll(old(State()), step.events, now)
    {
      var events := tcpServer.OnClose(conn, now);
      HandleServerEvents(events, now);
    }

    /** The server's periodic liveness sweep at `now`, with the service following the status changes. */
    method SweepCameras(now: nat)
      requires Valid()
      modifies this, tcpServer
      ensures Valid() && tcpServer.clients == old(tcpServer.clients)
      ensures var step := Sweep(old(tcpServer.State()), now);
              && tcpServer.State() == step.registry
              && State() == HandleAll(old(State()), step.events, now)
    {
      var events := tcpServer.CleanupOfflineCameras(now);
      HandleServerEvents(events, now);
    }

    method ResetCounter()
      requires Valid()
      modifies this
      ensures Valid()
      ensures State() == Reset(old(State()))
    {
      totalCount := 0;
      dailyIn, dailyOut := 0, 0;
      var i := 0;
      while i < |order|
        invariant 0 <= i <= |order|
        invariant order == old(order) && alarms == old(alarms) && notifications == old(notifications)
        invariant totalCount == 0 && dailyIn == 0 && dailyOut == 0
        invariant cameras == ZeroAll(old(cameras), order[..i])
      {
        var id := order[i];
        ZeroAllPrefix(old(cameras), order, i);
        ZeroAllZeroes(old(cameras), order[..i]);
        assert id in old(cameras);
        var camera := cameras[id];
        cameras := cameras[id := camera.(todayIn := 0, todayOut := 0, current := 0)];
        i := i + 1;
      }
      assert order[..|order|] == order;
      ZeroAllIsReset(old(State()));
      notifications := notifications + [CountUpdate(totalCount, dailyIn, dailyOut)];
      assert State() == Reset(old(State()));
    }

    method UpdateCameraConfig(id: CameraId, cfg: CameraConfig)
      requires Valid()
      modifies this, tcpServer
      ensures Valid() && tcpServer.clients == old(tcpServer.clients)
      ensures State() == UpdateConfig(old(State()), id, cfg)
      ensures tcpServer.State() == ForwardZones(old(tcpServer.State()), id in old(cameras), id, cfg)
    {
      if id in cameras {
        cameras := cameras[id := Merge(cameras[id], cfg)];
        if cfg.zones.Some? {
          tcpServer.UpdateCameraZones(id, cfg.zones.value);
        }
        notifications := notifications + [CameraUpdate(CameraData(cameras, order))];
      }
    }

    /** `getCurrentStats`: the counters, every camera record in order, and the ten newest alarms; nothing changes. */
    method GetCurrentStats() returns (stats: Stats)
      requires Valid()
      ensures stats.total == totalCount && stats.todayIn == dailyIn && stats.todayOut == dailyOut
      ensures |stats.cameras| == |order| && forall i :: 0 <= i < |order| ==> stats.cameras[i] == cameras[order[i]]
      ensures |stats.alarms| == Min(RecentAlarmCount, |alarms|) && stats.alarms == alarms[..|stats.alarms|]
    {
      CameraDataInOrder(cameras, order);
      stats := Stats(totalCount, dailyIn, dailyOut, CameraData(cameras, order), Take(alarms, RecentAlarmCount));
    }
  }
}

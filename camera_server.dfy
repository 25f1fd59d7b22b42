/**
 * The TCP camera server (opencv-person-counter/server/tcp-server.js): a newline
 * framer per connection feeding a message dispatcher, and a registry from camera id
 * to status, last-seen time, counters and socket, with a liveness sweep.
 *
 * Each operation is a pure transition on `Registry` returning the events it emits;
 * the class `TcpCameraServer` performs the same updates in place and states its new
 * state through those transitions.
 */
module CameraServer {
  import opened Wrappers
  import opened Types
  import opened Framing

  type CameraId = string

  /** The identity of one camera node's socket. */
  type ConnId = nat

  const DefaultPort: nat := 8888

  /** A camera silent for longer than this many milliseconds is demoted by the sweep. */
  const LivenessTimeout: nat := 60000

  /** One element of `detections`; of its fields the server reads only `zone`. */
  datatype DetectionItem = DetectionItem(zone: Option<string>)

  /** A decoded line, routed on its `type` field. */
  datatype CameraMessage =
    | CameraRegistration(cameraId: CameraId)
    | PersonDetection(cameraId: CameraId, detections: seq<DetectionItem>)
    | Heartbeat(cameraId: CameraId)
    | OtherMessage(kind: string)

  /** A `config_update` message the server writes to a camera's socket. */
  datatype ConfigUpdate =
    | FullConfig(cameraId: CameraId, zones: Zones, sensitivity: real, minPersonSize: nat, maxPersonSize: nat)
    | ZoneUpdate(cameraId: CameraId, zones: Zones)

  datatype Write = Write(conn: ConnId, config: ConfigUpdate)

  /** The configuration `sendCameraConfig` pushes to a newly registered camera. */
  function DefaultConfig(id: CameraId): ConfigUpdate {
    FullConfig(id, DefaultZones, 0.7, 50, 200)
  }

  /** The server's record of one camera. */
  datatype CameraRecord = CameraRecord(
    id: CameraId,
    socket: ConnId,
    status: Status,
    lastSeen: nat,
    detections: nat,
    todayIn: nat,
    todayOut: nat)

  /** What the server emits; the counting service subscribes to the first four. */
  datatype ServerEvent =
    | CameraRegistered(cameraId: CameraId)
    | PersonEntered(cameraId: CameraId, detection: DetectionItem)
    | PersonExited(cameraId: CameraId, detection: DetectionItem)
    | CameraStatusChanged(cameraId: CameraId, status: Status)
    | DetectionsReceived(cameraId: CameraId, detections: seq<DetectionItem>, camera: CameraRecord)

  /**
   * The server's state: the `cameras` Map, whose insertion order is `order`, and
   * everything written to sockets so far.
   */
  datatype Registry = Registry(cameras: map<CameraId, CameraRecord>, order: seq<CameraId>, writes: seq<Write>)

  const EmptyRegistry: Registry := Registry(map[], [], [])

  /** The result of one handler: the new state and the events emitted, in order. */
  datatype Step = Step(registry: Registry, events: seq<ServerEvent>)

  predicate Distinct<T(==)>(s: seq<T>) {
    forall i, j :: 0 <= i < j < |s| ==> s[i] != s[j]
  }

  /** `order` lists each key of the Map once, and each record carries its own key as `id`. */
  ghost predicate WellFormed(r: Registry) {
    && Distinct(r.order)
    && (forall id :: id in r.cameras <==> id in r.order)
    && (forall id :: id in r.cameras ==> r.cameras[id].id == id)
  }

  // ---------------------------------------------------------------- registration

  /**
   * `registerCamera`: the record for `id` is replaced by a fresh one (online, seen
   * now, counters zero, this socket), even when the id was known; the camera gets the
   * default configuration written to its socket.
   */
  function Register(r: Registry, conn: ConnId, id: CameraId, now: nat): (s: Step)
    ensures WellFormed(r) ==> WellFormed(s.registry)
    ensures s.registry.cameras.Keys == r.cameras.Keys + {id}
    ensures s.registry.cameras[id] == CameraRecord(id, conn, Online, now, 0, 0, 0)
    ensures forall other :: other in r.cameras && other != id ==> s.registry.cameras[other] == r.cameras[other]
    ensures id in r.cameras ==> s.registry.order == r.order
    ensures id !in r.cameras ==> s.registry.order == r.order + [id]
    ensures s.registry.writes == r.writes + [Write(conn, DefaultConfig(id))]
    ensures s.events == [CameraRegistered(id)]
  {
    var order := if id in r.cameras then r.order else r.order + [id];
    var reg := Registry(r.cameras[id := CameraRecord(id, conn, Online, now, 0, 0, 0)], order, r.writes + [Write(conn, DefaultConfig(id))]);
    assert WellFormed(r) ==> forall x :: x in reg.order <==> x in r.order || x == id;
    Step(reg, [CameraRegistered(id)])
  }

  // ---------------------------------------------------------------- detections

  /** How a detection's zone counts: entry as `In`, exit as `Out`, any other zone not at all. */
  function ItemDirection(d: DetectionItem): Option<Direction> {
    if d.zone == Some("entry") then Some(In)
    else if d.zone == Some("exit") then Some(Out)
    else None
  }

  function ItemDirections(items: seq<DetectionItem>): seq<Direction>
    decreases |items|
  {
    if items == [] then []
    else
      var d := ItemDirection(items[|items| - 1]);
      ItemDirections(items[..|items| - 1]) + (if d.Some? then [d.value] else [])
  }

  /** The crossings an event sequence reports: `person_entered` as `In`, `person_exited` as `Out`. */
  function EventDirections(events: seq<ServerEvent>): seq<Direction>
    decreases |events|
  {
    if events == [] then []
    else
      var e := events[|events| - 1];
      EventDirections(events[..|events| - 1])
        + (if e.PersonEntered? then [In] else if e.PersonExited? then [Out] else [])
  }

  function Count(dirs: seq<Direction>, d: Direction): nat
    decreases |dirs|
  {
    if dirs == [] then 0
    else Count(dirs[..|dirs| - 1], d) + (if dirs[|dirs| - 1] == d then 1 else 0)
  }

  /** The running record and the events of the `detections.forEach` loop. */
  datatype Tally = Tally(record: CameraRecord, events: seq<ServerEvent>)

  /** One iteration of the `detections.forEach` loop: an entry or exit item is counted and announced. */
  function TallyStep(t: Tally, id: CameraId, d: DetectionItem): Tally {
    if d.zone == Some("entry") then
      Tally(t.record.(todayIn := t.record.todayIn + 1), t.events + [PersonEntered(id, d)])
    else if d.zone == Some("exit") then
      Tally(t.record.(todayOut := t.record.todayOut + 1), t.events + [PersonExited(id, d)])
    else t
  }

  function TallyItems(rec: CameraRecord, id: CameraId, items: seq<DetectionItem>): Tally
    decreases |items|
  {
    if items == [] then Tally(rec, [])
    else TallyStep(TallyItems(rec, id, items[..|items| - 1]), id, items[|items| - 1])
  }

  /** `TallyItems` over one more item of `items`. */
  lemma TallyItemsPrefix(rec: CameraRecord, id: CameraId, items: seq<DetectionItem>, i: nat)
    requires i < |items|
    ensures TallyItems(rec, id, items[..i + 1]) == TallyStep(TallyItems(rec, id, items[..i]), id, items[i])
  {
    assert items[..i + 1][..i] == items[..i];
  }

  /**
   * The loop over a batch adds the number of entry items to `todayIn` and of exit items
   * to `todayOut`, leaves every other field alone, and emits exactly one
   * `person_entered`/`person_exited` per such item, in batch order, and nothing else.
   */
  lemma {:induction false} TallyItemsCounts(rec: CameraRecord, id: CameraId, items: seq<DetectionItem>)
    ensures TallyItems(rec, id, items).record
         == rec.(todayIn := rec.todayIn + Count(ItemDirections(items), In),
                 todayOut := rec.todayOut + Count(ItemDirections(items), Out))
    ensures EventDirections(TallyItems(rec, id, items).events) == ItemDirections(items)
    ensures |TallyItems(rec, id, items).events| == |ItemDirections(items)|
    ensures forall e :: e in TallyItems(rec, id, items).events ==>
              (e.PersonEntered? || e.PersonExited?) && e.cameraId == id
    decreases |items|
  {
    if items != [] {
      var prefix := items[..|items| - 1];
      var d := items[|items| - 1];
      TallyItemsCounts(rec, id, prefix);
      var t := TallyItems(rec, id, prefix);
      var dirs := ItemDirections(prefix);
      if d.zone == Some("entry") {
        assert ItemDirections(items) == dirs + [In];
        assert (dirs + [In])[..|dirs|] == dirs;
        assert (t.events + [PersonEntered(id, d)])[..|t.events|] == t.events;
      } else if d.zone == Some("exit") {
        assert ItemDirections(items) == dirs + [Out];
        assert (dirs + [Out])[..|dirs|] == dirs;
        assert (t.events + [PersonExited(id, d)])[..|t.events|] == t.events;
      } else {
        assert ItemDirections(items) == dirs + [] == dirs;
      }
    }
  }

  /**
   * `handlePersonDetection`: a batch for an unknown camera changes nothing and emits
   * nothing. For a known camera, `detections` grows by the batch length, `lastSeen`
   * becomes now, `todayIn`/`todayOut` grow by the entry/exit items, and the events
   * report exactly the batch's crossings, in order.
   */
  function RecordDetections(r: Registry, id: CameraId, items: seq<DetectionItem>, now: nat): (s: Step)
    ensures id !in r.cameras ==> s == Step(r, [])
    ensures WellFormed(r) ==> WellFormed(s.registry)
    ensures s.registry.order == r.order && s.registry.writes == r.writes
    ensures s.registry.cameras.Keys == r.cameras.Keys
    ensures id in r.cameras ==>
              var c := r.cameras[id];
              && s.registry.cameras == r.cameras[id := c.(detections := c.detections + |items|, lastSeen := now,
                                                         todayIn := c.todayIn + Count(ItemDirections(items), In),
                                                         todayOut := c.todayOut + Count(ItemDirections(items), Out))]
              && EventDirections(s.events) == ItemDirections(items)
    ensures forall e :: e in s.events ==>
              e.cameraId == id && (e.PersonEntered? || e.PersonExited? || e.DetectionsReceived?)
    ensures id in r.cameras ==>
              && |s.events| > 0 && s.events[|s.events| - 1].DetectionsReceived?
              && s.events[|s.events| - 1].detections == items
              && forall k :: 0 <= k < |s.events| - 1 ==> !s.events[k].DetectionsReceived?
  {
    if id !in r.cameras then Step(r, [])
    else
      var c := r.cameras[id];
      var start := c.(detections := c.detections + |items|, lastSeen := now);
      var t := TallyItems(start, id, items);
      TallyItemsCounts(start, id, items);
      assert EventDirections(t.events + [DetectionsReceived(id, items, t.record)]) == EventDirections(t.events) + [] by {
        assert (t.events + [DetectionsReceived(id, items, t.record)])[..|t.events|] == t.events;
      }
      Step(r.(cameras := r.cameras[id := t.record]), t.events + [DetectionsReceived(id, items, t.record)])
  }

  // ---------------------------------------------------------------- heartbeat

  /** `updateCameraHeartbeat`: a known camera is seen now and forced online; an unknown id is ignored. */
  function Touch(r: Registry, id: CameraId, now: nat): (s: Registry)
    ensures WellFormed(r) ==> WellFormed(s)
    ensures id !in r.cameras ==> s == r
    ensures id in r.cameras ==> s == r.(cameras := r.cameras[id := r.cameras[id].(lastSeen := now, status := Online)])
  {
    if id in r.cameras then
      r.(cameras := r.cameras[id := r.cameras[id].(lastSeen := now, status := Online)])
    else r
  }

  // ---------------------------------------------------------------- dispatch

  /** `handleCameraMessage`: routes on the message kind; an unknown kind changes nothing and emits nothing. */
  function Dispatch(r: Registry, conn: ConnId, msg: CameraMessage, now: nat): (s: Step)
    ensures WellFormed(r) ==> WellFormed(s.registry)
    ensures msg.OtherMessage? ==> s == Step(r, [])
    ensures !msg.CameraRegistration? ==>
              s.registry.order == r.order && s.registry.writes == r.writes && s.registry.cameras.Keys == r.cameras.Keys
    ensures msg.Heartbeat? ==> s.events == []
    ensures msg.CameraRegistration? ==> s == Register(r, conn, msg.cameraId, now)
    ensures msg.PersonDetection? ==> s == RecordDetections(r, msg.cameraId, msg.detections, now)
    ensures msg.Heartbeat? ==> s.registry == Touch(r, msg.cameraId, now)
  {
    match msg
    case CameraRegistration(id) => Register(r, conn, id, now)
    case PersonDetection(id, items) => RecordDetections(r, id, items, now)
    case Heartbeat(id) => Step(Touch(r, id, now), [])
    case OtherMessage(_) => Step(r, [])
  }

  /** One framed line: blank lines are skipped, lines that fail to decode are dropped. */
  function ProcessLine(r: Registry, conn: ConnId, line: string, now: nat, decode: string -> Option<CameraMessage>): Step
  {
    if IsBlank(line) then Step(r, [])
    else
      match decode(line)
      case None => Step(r, [])
      case Some(msg) => Dispatch(r, conn, msg, now)
  }

  /** The `lines.forEach` loop of the `data` handler. */
  function ProcessLines(r: Registry, conn: ConnId, lines: seq<string>, now: nat, decode: string -> Option<CameraMessage>): (s: Step)
    ensures WellFormed(r) ==> WellFormed(s.registry)
    decreases |lines|
  {
    if lines == [] then Step(r, [])
    else
      var before := ProcessLines(r, conn, lines[..|lines| - 1], now, decode);
      var step := ProcessLine(before.registry, conn, lines[|lines| - 1], now, decode);
      Step(step.registry, before.events + step.events)
  }

  /** A line that has no effect: blank, undecodable, or of an unknown kind. */
  predicate Inert(line: string, decode: string -> Option<CameraMessage>) {
    IsBlank(line) || decode(line).None? || decode(line).value.OtherMessage?
  }

  /**
   * A blank, malformed or unknown-kind line is dropped without touching the registry
   * and without affecting the handling of the lines around it.
   */
  lemma {:induction false} InertLineDropped(r: Registry, conn: ConnId, pre: seq<string>, bad: string, post: seq<string>,
                                            now: nat, decode: string -> Option<CameraMessage>)
    requires Inert(bad, decode)
    ensures ProcessLines(r, conn, pre + [bad] + post, now, decode) == ProcessLines(r, conn, pre + post, now, decode)
    decreases |post|
  {
    if post == [] {
      assert (pre + [bad] + post)[..|pre|] == pre;
      assert pre + post == pre;
    } else {
      var init, last := post[..|post| - 1], post[|post| - 1];
      InertLineDropped(r, conn, pre, bad, init, now, decode);
      assert (pre + [bad] + post)[..|pre + [bad] + post| - 1] == pre + [bad] + init;
      assert (pre + post)[..|pre + post| - 1] == pre + init;
    }
  }

  // ---------------------------------------------------------------- close and sweep

  /** The two ways a camera goes offline: the liveness sweep at `now`, or its socket closing at `now`. */
  datatype Demotion = Timeout(now: nat) | Closed(conn: ConnId, now: nat)

  /**
   * Which cameras a demotion hits: the sweep takes those online and silent for strictly
   * longer than the timeout; a close takes those whose stored socket is the closing one,
   * whatever their status.
   */
  predicate Demotes(d: Demotion, c: CameraRecord) {
    match d
    case Timeout(now) => now - c.lastSeen > LivenessTimeout && c.status == Online
    case Closed(conn, _) => c.socket == conn
  }

  /** The sweep only sets the status; a close also sets `lastSeen`. The socket stays as it was. */
  function Demote(d: Demotion, c: CameraRecord): (r: CameraRecord)
    ensures r.status == Offline && r.id == c.id && r.socket == c.socket
  {
    match d
    case Timeout(_) => c.(status := Offline)
    case Closed(_, now) => c.(status := Offline, lastSeen := now)
  }

  datatype Marked = Marked(cameras: map<CameraId, CameraRecord>, events: seq<ServerEvent>)

  /** One iteration of the demotion loop: the camera under `id`, if the demotion hits it, goes offline and is announced. */
  function DemoteStep(m: Marked, id: CameraId, d: Demotion): (r: Marked)
    ensures r.cameras.Keys == m.cameras.Keys
  {
    if id in m.cameras && Demotes(d, m.cameras[id]) then
      Marked(m.cameras[id := Demote(d, m.cameras[id])], m.events + [CameraStatusChanged(id, Offline)])
    else m
  }

  /** The `cameras.forEach` loop of the close handler and of `cleanupOfflineCameras`. */
  function DemoteAll(cams: map<CameraId, CameraRecord>, ids: seq<CameraId>, d: Demotion): (m: Marked)
    ensures m.cameras.Keys == cams.Keys
    decreases |ids|
  {
    if ids == [] then Marked(cams, [])
    else DemoteStep(DemoteAll(cams, ids[..|ids| - 1], d), ids[|ids| - 1], d)
  }

  /** `DemoteAll` over one more id of `ids`. */
  lemma DemoteAllPrefix(cams: map<CameraId, CameraRecord>, ids: seq<CameraId>, i: nat, d: Demotion)
    requires i < |ids|
    ensures DemoteAll(cams, ids[..i + 1], d) == DemoteStep(DemoteAll(cams, ids[..i], d), ids[i], d)
  {
    assert ids[..i + 1][..i] == ids[..i];
  }

  /** Demotion never changes a record's own id. */
  lemma {:induction false} DemoteAllKeepsIds(cams: map<CameraId, CameraRecord>, ids: seq<CameraId>, d: Demotion)
    ensures forall id :: id in cams ==> DemoteAll(cams, ids, d).cameras[id].id == cams[id].id
    decreases |ids|
  {
    if ids != [] {
      DemoteAllKeepsIds(cams, ids[..|ids| - 1], d);
    }
  }

  /** The ids a demotion hits, judged on the records as they were, in iteration order. */
  function Hit(cams: map<CameraId, CameraRecord>, ids: seq<CameraId>, d: Demotion): seq<CameraId>
    decreases |ids|
  {
    if ids == [] then []
    else
      var id := ids[|ids| - 1];
      Hit(cams, ids[..|ids| - 1], d) + (if id in cams && Demotes(d, cams[id]) then [id] else [])
  }

  function OfflineNotices(ids: seq<CameraId>): (events: seq<ServerEvent>)
    ensures |events| == |ids|
    ensures forall i :: 0 <= i < |ids| ==> events[i] == CameraStatusChanged(ids[i], Offline)
    decreases |ids|
  {
    if ids == [] then [] else OfflineNotices(ids[..|ids| - 1]) + [CameraStatusChanged(ids[|ids| - 1], Offline)]
  }

  /**
   * Over distinct ids, the loop demotes exactly the cameras the demotion hits (judged on
   * their records before the loop), leaves every other camera as it was, and emits one
   * `camera_status_changed` offline per demoted camera, in iteration order.
   */
  lemma {:induction false} DemoteAllExactly(cams: map<CameraId, CameraRecord>, ids: seq<CameraId>, d: Demotion)
    requires Distinct(ids)
    ensures forall id :: id in cams ==>
              DemoteAll(cams, ids, d).cameras[id]
                == if id in ids && Demotes(d, cams[id]) then Demote(d, cams[id]) else cams[id]
    ensures DemoteAll(cams, ids, d).events == OfflineNotices(Hit(cams, ids, d))
    decreases |ids|
  {
    if ids != [] {
      var init, last := ids[..|ids| - 1], ids[|ids| - 1];
      assert Distinct(init);
      DemoteAllExactly(cams, init, d);
      assert last !in init;
      var h := Hit(cams, init, d);
      if last in cams && Demotes(d, cams[last]) {
        assert OfflineNotices(h + [last])[..|h|] == OfflineNotices(h) by {
          assert (h + [last])[..|h|] == h;
        }
      } else {
        assert Hit(cams, ids, d) == h + [];
      }
      forall id | id in cams
        ensures DemoteAll(cams, ids, d).cameras[id]
                  == if id in ids && Demotes(d, cams[id]) then Demote(d, cams[id]) else cams[id]
      {
        assert id in ids <==> id in init || id == last;
      }
    }
  }

  /** `cleanupOfflineCameras` at time `now`. */
  function Sweep(r: Registry, now: nat): (s: Step)
    requires WellFormed(r)
    ensures WellFormed(s.registry)
    ensures s.registry.order == r.order && s.registry.writes == r.writes
    ensures s.registry.cameras.Keys == r.cameras.Keys
    ensures forall id :: id in r.cameras ==>
              s.registry.cameras[id]
                == if r.cameras[id].status == Online && now - r.cameras[id].lastSeen > LivenessTimeout
                   then r.cameras[id].(status := Offline) else r.cameras[id]
    ensures s.events == OfflineNotices(Hit(r.cameras, r.order, Timeout(now)))
    ensures r.cameras == map[] ==> s == Step(r, [])
  {
    var m := DemoteAll(r.cameras, r.order, Timeout(now));
    DemoteAllExactly(r.cameras, r.order, Timeout(now));
    assert r.cameras == map[] ==> r.order == [] by {
      if r.order != [] { assert r.order[0] in r.cameras; }
    }
    Step(r.(cameras := m.cameras), m.events)
  }

  /** The socket `close` handler: every camera whose stored socket is `conn` goes offline, seen now. */
  function CloseConnection(r: Registry, conn: ConnId, now: nat): (s: Step)
    requires WellFormed(r)
    ensures WellFormed(s.registry)
    ensures s.registry.order == r.order && s.registry.writes == r.writes
    ensures s.registry.cameras.Keys == r.cameras.Keys
    ensures forall id :: id in r.cameras ==>
              s.registry.cameras[id]
                == if r.cameras[id].socket == conn
                   then r.cameras[id].(status := Offline, lastSeen := now) else r.cameras[id]
    ensures s.events == OfflineNotices(Hit(r.cameras, r.order, Closed(conn, now)))
  {
    var m := DemoteAll(r.cameras, r.order, Closed(conn, now));
    DemoteAllExactly(r.cameras, r.order, Closed(conn, now));
    Step(r.(cameras := m.cameras), m.events)
  }

  // ---------------------------------------------------------------- queries

  /** An entry of the object `getCameraStatus` returns. */
  datatype CameraStatusView = CameraStatusView(
    id: CameraId, status: Status, lastSeen: nat, todayIn: nat, todayOut: nat, detections: nat)

  function View(id: CameraId, c: CameraRecord): CameraStatusView {
    CameraStatusView(id, c.status, c.lastSeen, c.todayIn, c.todayOut, c.detections)
  }

  /** `updateCameraZones`: a zone update goes to the stored socket of a known camera, and nowhere otherwise. */
  function PushZones(r: Registry, id: CameraId, zones: Zones): (s: Registry)
    ensures s.cameras == r.cameras && s.order == r.order
    ensures id in r.cameras ==> s.writes == r.writes + [Write(r.cameras[id].socket, ZoneUpdate(id, zones))]
    ensures id !in r.cameras ==> s.writes == r.writes
  {
    if id in r.cameras then r.(writes := r.writes + [Write(r.cameras[id].socket, ZoneUpdate(id, zones))]) else r
  }

  // ---------------------------------------------------------------- the server object

  class TcpCameraServer {
    const port: nat
    var cameras: map<CameraId, CameraRecord>
    var order: seq<CameraId>
    var writes: seq<Write>
    /** `this.clients`: the sockets currently connected. */
    var clients: set<ConnId>

    function State(): Registry
      reads this
    {
      Registry(cameras, order, writes)
    }

    ghost predicate Valid()
      reads this
    {
      WellFormed(State())
    }

    constructor (port: nat)
      ensures Valid() && this.port == port
      ensures State() == EmptyRegistry && clients == {}
    {
      this.port := port;
      cameras, order, writes := map[], [], [];
      clients := {};
    }

    /** A camera node connects: its socket, new to `clients`, joins them and gets an empty line buffer. */
    method Connect(conn: ConnId) returns (framer: LineFramer)
      requires conn !in clients
      modifies this
      ensures fresh(framer) && framer.Valid() && framer.buffer == ""
      ensures State() == old(State()) && clients == old(clients) + {conn}
    {
      clients := clients + {conn};
      framer := new LineFramer();
    }

    /**
     * The socket `data` handler: the chunk is framed, and every complete line that is
     * not blank and decodes is handled, in order.
     */
    method OnData(framer: LineFramer, conn: ConnId, chunk: string, now: nat, decode: string -> Option<CameraMessage>)
      returns (events: seq<ServerEvent>)
      requires Valid() && framer.Valid()
      modifies this, framer
      ensures Valid() && framer.Valid() && clients == old(clients)
      ensures framer.buffer == Feed(old(framer.buffer), chunk).residual
      ensures Step(State(), events) == ProcessLines(old(State()), conn, Feed(old(framer.buffer), chunk).lines, now, decode)
    {
      var lines := framer.Push(chunk);
      events := [];
      var i := 0;
      while i < |lines|
        invariant 0 <= i <= |lines|
        invariant Valid() && clients == old(clients)
        invariant framer.buffer == Feed(old(framer.buffer), chunk).residual
        invariant Step(State(), events) == ProcessLines(old(State()), conn, lines[..i], now, decode)
      {
        assert lines[..i + 1][..i] == lines[..i];
        var emitted := HandleLine(conn, lines[i], now, decode);
        events := events + emitted;
        i := i + 1;
      }
      assert lines[..|lines|] == lines;
    }

    /** The body of `lines.forEach`: skip a blank line, drop one that fails to decode, handle the rest. */
    method HandleLine(conn: ConnId, line: string, now: nat, decode: string -> Option<CameraMessage>)
      returns (events: seq<ServerEvent>)
      requires Valid()
      modifies this
      ensures Valid() && clients == old(clients)
      ensures Step(State(), events) == ProcessLine(old(State()), conn, line, now, decode)
    {
      events := [];
      if !IsBlank(line) {
        var msg := decode(line);
        if msg.Some? {
          events := HandleCameraMessage(conn, msg.value, now);
        }
      }
    }

    method HandleCameraMessage(conn: ConnId, msg: CameraMessage, now: nat) returns (events: seq<ServerEvent>)
      requires Valid()
      modifies this
      ensures Valid() && clients == old(clients)
      ensures Step(State(), events) == Dispatch(old(State()), conn, msg, now)
    {
      match msg
      case CameraRegistration(id) =>
        events := RegisterCamera(conn, id, now);
      case PersonDetection(id, items) =>
        events := HandlePersonDetection(id, items, now);
      case Heartbeat(id) =>
        UpdateCameraHeartbeat(id, now);
        events := [];
      case OtherMessage(_) =>
        events := [];
    }

    method RegisterCamera(conn: ConnId, id: CameraId, now: nat) returns (events: seq<ServerEvent>)
      requires Valid()
      modifies this
      ensures Valid() && clients == old(clients)
      ensures Step(State(), events) == Register(old(State()), conn, id, now)
    {
      if id !in cameras {
        order := order + [id];
      }
      cameras := cameras[id := CameraRecord(id, conn, Online, now, 0, 0, 0)];
      events := [CameraRegistered(id)];
      writes := writes + [Write(conn, DefaultConfig(id))];
    }

    method HandlePersonDetection(id: CameraId, items: seq<DetectionItem>, now: nat) returns (events: seq<ServerEvent>)
      requires Valid()
      modifies this
      ensures Valid() && clients == old(clients)
      ensures Step(State(), events) == RecordDetections(old(State()), id, items, now)
    {
      if id !in cameras {
        return [];
      }
      var camera := cameras[id];
      camera := camera.(detections := camera.detections + |items|, lastSeen := now);
      cameras := cameras[id := camera];
      ghost var start := camera;
      events := [];
      var i := 0;
      while i < |items|
        invariant 0 <= i <= |items|
        invariant cameras == old(cameras)[id := camera]
        invariant order == old(order) && writes == old(writes) && clients == old(clients)
        invariant Tally(camera, events) == TallyItems(start, id, items[..i])
      {
        var detection := items[i];
        TallyItemsPrefix(start, id, items, i);
        ghost var before := Tally(camera, events);
        if detection.zone == Some("entry") {
          camera := camera.(todayIn := camera.todayIn + 1);
          cameras := cameras[id := camera];
          events := events + [PersonEntered(id, detection)];
        } else if detection.zone == Some("exit") {
          camera := camera.(todayOut := camera.todayOut + 1);
          cameras := cameras[id := camera];
          events := events + [PersonExited(id, detection)];
        }
        assert Tally(camera, events) == TallyStep(before, id, detection);
        i := i + 1;
      }
      assert items[..|items|] == items;
      assert Tally(camera, events) == TallyItems(start, id, items);
      events := events + [DetectionsReceived(id, items, camera)];
      assert Step(State(), events) == RecordDetections(old(State()), id, items, now);
    }

    method UpdateCameraHeartbeat(id: CameraId, now: nat)
      requires Valid()
      modifies this
      ensures Valid() && clients == old(clients)
      ensures State() == Touch(old(State()), id, now)
    {
      if id in cameras {
        var camera := cameras[id];
        cameras := cameras[id := camera.(lastSeen := now, status := Online)];
      }
    }

    /** The shared `cameras.forEach` loop of the close handler and the sweep. */
    method DemoteCameras(d: Demotion) returns (events: seq<ServerEvent>)
      requires Valid()
      modifies this
      ensures Valid() && clients == old(clients) && order == old(order) && writes == old(writes)
      ensures Marked(cameras, events) == DemoteAll(old(cameras), old(order), d)
    {
      ghost var start := cameras;
      var ids := order;
      assert forall id :: id in ids ==> id in start;
      events := [];
      var i := 0;
      while i < |ids|
        invariant 0 <= i <= |ids|
        invariant order == ids && writes == old(writes) && clients == old(clients)
        invariant Marked(cameras, events) == DemoteAll(start, ids[..i], d)
      {
        var id := ids[i];
        DemoteAllPrefix(start, ids, i, d);
        ghost var before := Marked(cameras, events);
        var camera := cameras[id];
        if Demotes(d, camera) {
          cameras := cameras[id := Demote(d, camera)];
          events := events + [CameraStatusChanged(id, Offline)];
        }
        assert Marked(cameras, events) == DemoteStep(before, id, d);
        i := i + 1;
      }
      assert ids[..|ids|] == ids;
      DemoteAllKeepsIds(start, ids, d);
    }

    /** The socket `close` handler: the socket leaves `clients` and its cameras go offline. */
    method OnClose(conn: ConnId, now: nat) returns (events: seq<ServerEvent>)
      requires Valid()
      modifies this
      ensures Valid() && clients == old(clients) - {conn}
      ensures Step(State(), events) == CloseConnection(old(State()), conn, now)
    {
      clients := clients - {conn};
      events := DemoteCameras(Closed(conn, now));
    }

    /** The socket `error` handler: the socket only leaves `clients`. */
    method OnError(conn: ConnId)
      modifies this
      ensures State() == old(State()) && clients == old(clients) - {conn}
    {
      clients := clients - {conn};
    }

    /** `cleanupOfflineCameras`, run by the periodic timer at time `now`. */
    method CleanupOfflineCameras(now: nat) returns (events: seq<ServerEvent>)
      requires Valid()
      modifies this
      ensures Valid() && clients == old(clients)
      ensures Step(State(), events) == Sweep(old(State()), now)
    {
      events := DemoteCameras(Timeout(now));
    }

    /** `getCameraStatus`: one view per known camera, keyed by id; reads the registry without changing it. */
    method GetCameraStatus() returns (status: map<CameraId, CameraStatusView>)
      requires Valid()
      ensures status.Keys == cameras.Keys
      ensures forall id :: id in status ==> status[id] == View(id, cameras[id])
    {
      status := map[];
      var i := 0;
      while i < |order|
        invariant 0 <= i <= |order|
        invariant forall k :: 0 <= k < i ==> order[k] in status
        invariant forall id :: id in status ==> id in cameras && status[id] == View(id, cameras[id])
      {
        var id := order[i];
        status := status[id := View(id, cameras[id])];
        i := i + 1;
      }
      forall id | id in cameras ensures id in status {
        var k :| 0 <= k < |order| && order[k] == id;
      }
    }

    method UpdateCameraZones(id: CameraId, zones: Zones)
      requires Valid()
      modifies this
      ensures Valid() && clients == old(clients)
      ensures State() == PushZones(old(State()), id, zones)
    {
      if id in cameras {
        writes := writes + [Write(cameras[id].socket, ZoneUpdate(id, zones))];
      }
    }
  }
}

# Person counter: camera ingestion and counting engine

A Dafny model of the server side of a people-counting system, plus the zone rules of
the edge camera node. Camera nodes (Raspberry Pi) detect people, place each one in an
entry or exit zone, and stream newline-delimited JSON messages over TCP. A TCP camera
server frames the stream, dispatches on the message `type`, and keeps a registry of
cameras. It emits `person_entered`/`person_exited` events, and the counting service
turns these into a global occupancy count that never goes negative, daily in/out
statistics, per-camera counters, and wrong-direction alarms in a log capped at 50
entries. An older single-counter service with its own zone test is modelled as well.

Modules, one per source file, plus shared pieces:

- `Types`: the record shapes (camera type, zone, alarm).
- `Wrappers`: `Option`.
- `Framing`: the newline framer. It is shared by the server's `data` handler and the
  node's `send_data`.
- `AlarmLog`: the alarm log capped at 50.
- `CameraServer`: `opencv-person-counter/server/tcp-server.js`.
- `CounterService`: `opencv-person-counter/server/person-counter-service.js`.
- `OpenCvService`: `server/opencv-service.js`.
- `CameraNode`: `raspberry-pi/camera-node.py`.

How the model is built:

- **State as values.** Every stateful source object is a class whose fields are the
  source's fields. Its `State()` projects them into a datatype.
- **Methods tied to transitions.** Every method states its new state as a pure
  transition of the old one, for example `Step(State(), events) ==
  RecordDetections(old(State()), id, items, now)`.
- **Properties as lemmas.** The properties are proved about those transitions.
- **Loops as prefix folds.** Loops over camera maps, detection batches and event lists
  are specified by folds over prefixes, so each loop invariant reads
  `state == Fold(old, xs[..i])`.
- **Events are returned.** The TCP server's methods return the events they emit, in
  order. The counting service owns its TCP server, as in the source constructor. It calls
  the server and then runs its subscribed handler on each returned event, in order.
  - In the source each `emit` runs the handler synchronously in the middle of the
    server's loop.
  - The server's handlers touch only the registry, and the service's handlers only the
    service's own fields, so the final states and the order of notifications are the
    same.
- **Time and decoding are parameters.** Time is a parameter `now`, in milliseconds.
  Socket identities are numbers, and each connection gets one no earlier connection used. JSON decoding is a parameter
  `decode: string -> Option<CameraMessage>`.

Two behaviours of the code worth noting:

- Re-registering a known camera id replaces its records with zeroed counters, in both
  the server and the service.
- The close handler sets cameras offline but never clears their stored socket.

The node and the server-side OpenCV service both place a detection in a zone by testing
the box's centre against a zone rectangle, edges included. Their default zones differ.
The node takes a floor centre (`x + w // 2`), the service a real one (`x + width / 2`).
`CameraNode.EvenBoxesAgree` and `CameraNode.OddWidthDisagrees` say when the two tests,
applied to the same rectangle, agree.

## Model

| member | source | states |
|---|---|---|
| Framing.Split | opencv-person-counter/server/tcp-server.js:24 | `split('\n')` gives at least one piece, no piece holds a newline, and the pieces rejoined with newlines are the input |
| Framing.Feed | opencv-person-counter/server/tcp-server.js:21-25 | one `data` event loses no character: the emitted lines, each with its newline, followed by the new residual, equal the old buffer plus the chunk; the residual holds no newline |
| Framing.FramesUnique | opencv-person-counter/server/tcp-server.js:24-25 | a framed stream determines its lines and residual uniquely |
| Framing.SplitFrames | opencv-person-counter/server/tcp-server.js:24-25 | splitting a framed stream gives back its lines followed by its residual |
| Framing.ReplayReassembles | opencv-person-counter/server/tcp-server.js:20-25 | over any number of chunks, the lines delivered plus the residual reassemble the whole stream, and the residual never holds a newline |
| Framing.ReplayIsSplit | opencv-person-counter/server/tcp-server.js:20-27 | the lines of a connection are those of splitting everything received at once |
| Framing.ChunkBoundaryIndependence | opencv-person-counter/server/tcp-server.js:20-27 | two chunkings of the same character stream deliver the same lines, in the same order, and the same residual |
| Framing.FramedPayloadsRoundTrip | opencv-person-counter/server/tcp-server.js:20-27 | newline-free payloads, each framed with one newline, come back exactly and in order, with an empty residual, however the stream is chunked |
| Framing.LineFramer.constructor | opencv-person-counter/server/tcp-server.js:18 | a connection starts with an empty buffer |
| Framing.LineFramer.Push | opencv-person-counter/server/tcp-server.js:21-25 | the lines returned and the new buffer are those of `Feed` on the old buffer; the buffer stays newline-free |
| AlarmLog.DecimalString | opencv-person-counter/server/person-counter-service.js:108 | the alarm id is a non-empty string of decimal digits, without a leading zero, whose value is `n` |
| AlarmLog.Record | opencv-person-counter/server/person-counter-service.js:113-118 | the new alarm comes first, the old log follows, and the length is min(old + 1, 50) |
| AlarmLog.Take | opencv-person-counter/server/person-counter-service.js:134 | `slice(0, n)` is the prefix of length min(n, length) |
| AlarmLog.RecordTakesNewest | opencv-person-counter/server/person-counter-service.js:113-118 | recording into a capped log equals capping the log with the alarm prepended |
| AlarmLog.RecordAllKeepsNewest | opencv-person-counter/server/person-counter-service.js:106-120 | after any sequence of alarms the log is the 50 most recent, newest first |
| AlarmLog.RecordAllBounded | opencv-person-counter/server/person-counter-service.js:115-118 | the log never exceeds 50 entries, and holds exactly 50 after more than 50 alarms |
| CameraServer.Register | opencv-person-counter/server/tcp-server.js:90-128 | registration sets the record for the id (online, seen now, counters zero, this socket), leaves other ids alone, emits `camera_registered` and writes the default configuration to this socket; a new id is appended to the camera order, a known one keeps its place |
| CameraServer.TallyItemsCounts | opencv-person-counter/server/tcp-server.js:144-152 | the batch loop adds the entry items to `todayIn` and the exit items to `todayOut`, and emits one crossing event per such item, in order, for this camera |
| CameraServer.RecordDetections | opencv-person-counter/server/tcp-server.js:130-160 | an unknown camera changes nothing and emits nothing; a known one gains the batch length in `detections`, `lastSeen = now`, and the entry/exit counts, and the events report exactly the batch's crossings, followed by exactly one `detections` event carrying the batch |
| CameraServer.Touch | opencv-person-counter/server/tcp-server.js:162-168 | a heartbeat on a known id sets it online and seen now; on an unknown id it is a no-op |
| CameraServer.Dispatch | opencv-person-counter/server/tcp-server.js:69-88 | routing on `type`: a registration is `Register`, a detection batch `RecordDetections`, a heartbeat `Touch` with no events; an unknown type changes no state and emits nothing; only registration adds ids |
| CameraServer.ProcessLines | opencv-person-counter/server/tcp-server.js:27-36 | handling the lines of a chunk keeps the registry well formed |
| CameraServer.InertLineDropped | opencv-person-counter/server/tcp-server.js:27-36 | a blank, unparsable or unknown-type line is dropped without affecting the registry or the lines around it |
| CameraServer.Demote | opencv-person-counter/server/tcp-server.js:44-50 | a demoted camera is offline and keeps its id and socket |
| CameraServer.DemoteAll | opencv-person-counter/server/tcp-server.js:174-180 | the demotion loop keeps the set of known ids |
| CameraServer.OfflineNotices | opencv-person-counter/server/tcp-server.js:178 | one `camera_status_changed` offline per demoted id, in order |
| CameraServer.DemoteAllExactly | opencv-person-counter/server/tcp-server.js:174-180 | over distinct ids the loop demotes exactly the cameras the rule hits, judged on their records before the loop, leaves every other camera as it was, and emits one offline event per demoted camera |
| CameraServer.Sweep | opencv-person-counter/server/tcp-server.js:170-181 | the sweep sets offline exactly the online cameras silent for strictly more than 60000 ms; everything else is unchanged; an empty map is a no-op |
| CameraServer.CloseConnection | opencv-person-counter/server/tcp-server.js:39-51 | closing a socket sets offline, seen now, exactly the cameras whose stored socket is that socket, whatever their status; others are untouched |
| CameraServer.PushZones | opencv-person-counter/server/tcp-server.js:198-214 | a zone update is written to the stored socket of a known camera, and nowhere for an unknown one; the registry is unchanged |
| CameraServer.TcpCameraServer.constructor | opencv-person-counter/server/tcp-server.js:5-11 | an empty registry and no clients on the given port |
| CameraServer.TcpCameraServer.Connect | opencv-person-counter/server/tcp-server.js:14-18 | a socket not already among `clients` joins them and gets a fresh empty buffer |
| CameraServer.TcpCameraServer.OnData | opencv-person-counter/server/tcp-server.js:20-37 | the chunk is framed, and the registry and events are those of handling the complete lines in order |
| CameraServer.TcpCameraServer.HandleLine | opencv-person-counter/server/tcp-server.js:27-36 | one line: blank skipped, undecodable dropped, otherwise dispatched |
| CameraServer.TcpCameraServer.HandleCameraMessage | opencv-person-counter/server/tcp-server.js:69-88 | performs `Dispatch` in place |
| CameraServer.TcpCameraServer.RegisterCamera | opencv-person-counter/server/tcp-server.js:90-108 | performs `Register` in place |
| CameraServer.TcpCameraServer.HandlePersonDetection | opencv-person-counter/server/tcp-server.js:130-160 | the `forEach` over the batch performs `RecordDetections` in place |
| CameraServer.TcpCameraServer.UpdateCameraHeartbeat | opencv-person-counter/server/tcp-server.js:162-168 | performs `Touch` in place |
| CameraServer.TcpCameraServer.DemoteCameras | opencv-person-counter/server/tcp-server.js:174-180 | the shared `cameras.forEach` loop performs `DemoteAll` in place |
| CameraServer.TcpCameraServer.OnClose | opencv-person-counter/server/tcp-server.js:39-51 | the socket leaves `clients`, and `CloseConnection` is performed |
| CameraServer.TcpCameraServer.OnError | opencv-person-counter/server/tcp-server.js:53-56 | the socket leaves `clients`; the registry is unchanged |
| CameraServer.TcpCameraServer.CleanupOfflineCameras | opencv-person-counter/server/tcp-server.js:170-181 | performs `Sweep` in place |
| CameraServer.TcpCameraServer.GetCameraStatus | opencv-person-counter/server/tcp-server.js:183-196 | one view per known camera, keyed by id, with its status, last seen time and counters; nothing changes |
| CameraServer.TcpCameraServer.UpdateCameraZones | opencv-person-counter/server/tcp-server.js:198-214 | performs `PushZones` in place |
| CounterService.ClampedRunBounds | opencv-person-counter/server/person-counter-service.js:70 | the clamped count lies between start + entries − exits and start + entries |
| CounterService.ClampedRunExact | opencv-person-counter/server/person-counter-service.js:70 | while no exit meets a zero count, the clamped count is exactly start + entries − exits |
| CounterService.ClampedRunAppend | opencv-person-counter/server/person-counter-service.js:41-95 | running two runs one after the other is running them joined |
| CounterService.EntriesThenExits | opencv-person-counter/server/person-counter-service.js:41-95 | n entries then m exits leave max(0, t + n − m) |
| CounterService.CameraDataInOrder | opencv-person-counter/server/person-counter-service.js:124-126 | `getCameraData` lists exactly one record per camera, in Map insertion order |
| CounterService.OnRegistered | opencv-person-counter/server/person-counter-service.js:17-39 | registration replaces the record with the fixed defaults (`Kamera <id>`, `Automatisch erkannt`, online, type `both`, `1920x1080`, counters zero, sensitivity 0.7, sizes 50 to 200, the default zones, seen now) whatever was there before; other cameras and global counts unchanged; a new id is appended to the camera order (a known one keeps its place); the camera list is broadcast |
| CounterService.ReregisterDiscardsConfig | opencv-person-counter/server/person-counter-service.js:17-35 | a camera registering again ends with the same record whether or not `updateCameraConfig` changed it before |
| CounterService.OnStatusChanged | opencv-person-counter/server/person-counter-service.js:97-103 | a known camera takes the new status and the list is broadcast; an unknown id changes nothing |
| CounterService.OnCrossing | opencv-person-counter/server/person-counter-service.js:41-95 | entry: total + 1; exit: total − 1 clamped at 0; the daily count grows by one even for an unknown camera; a known camera's record becomes `Crossed`: `todayIn` or `todayOut` grows by one and `current` moves the same way, other cameras unchanged; an alarm exactly on a wrong-direction crossing, announced before the single `count_update`, which carries the post-update values |
| CounterService.BothNeverAlarms | opencv-person-counter/server/person-counter-service.js:51-59 | a camera of type `both` never raises an alarm |
| CounterService.AlarmExactlyOnWrongDirection | opencv-person-counter/server/person-counter-service.js:41-95 | an alarm is created iff the camera is known and an entry hits an exit camera or an exit hits an entry camera |
| CounterService.Handle | opencv-person-counter/server/person-counter-service.js:16-104 | each subscribed handler keeps the service well formed, with the alarm log within 50 |
| CounterService.HandleAll | opencv-person-counter/server/person-counter-service.js:16-104 | handling any event sequence keeps the service well formed |
| CounterService.HandleAllCounts | opencv-person-counter/server/person-counter-service.js:41-95 | after any events, the total is the clamped running count of their crossings, and the daily in/out grow by exactly the entries/exits |
| CounterService.HandleAllCamera | opencv-person-counter/server/person-counter-service.js:45-77 | one camera's crossings add the entries/exits to its `todayIn`/`todayOut` and move `current` as a clamped running count; nothing else changes |
| CounterService.DetectionBatchCounts | opencv-person-counter/server/tcp-server.js:144-152 | a detection batch end to end: the service total is the clamped count of the batch's crossings, and the daily counts grow exactly as the server's per-camera counters |
| CounterService.DetectionBatchCamera | opencv-person-counter/server/person-counter-service.js:45-77 | the same batch moves the service's per-camera `todayIn`/`todayOut` in step with the server's, and `current` as a clamped count |
| CounterService.Reset | opencv-person-counter/server/person-counter-service.js:152-170 | reset zeroes the global counters and every camera's counters, keeps all other fields and the alarms, and emits one `count_update` of zeros |
| CounterService.ZeroAllZeroes | opencv-person-counter/server/person-counter-service.js:157-161 | the reset loop zeroes the counters of exactly the cameras it visits, whatever the order or repetitions, and keeps the set of cameras |
| CounterService.ZeroAllIsReset | opencv-person-counter/server/person-counter-service.js:157-161 | over the service's own camera order, the reset loop yields `Reset`'s camera map |
| CounterService.CountsSinceReset | opencv-person-counter/server/person-counter-service.js:152-167 | after a reset the daily counts are exactly the entries/exits since, and the total their clamped count from zero |
| CounterService.UpdateConfig | opencv-person-counter/server/person-counter-service.js:138-150 | an unknown id changes nothing; a known camera becomes `Merge(c, cfg)`: each supplied key takes the supplied value, each absent key keeps its value, and id, counters and last-seen time are kept; other cameras are unchanged; the list is broadcast |
| CounterService.MergeKeys | opencv-person-counter/server/person-counter-service.js:141 | for each of the nine configuration keys, a supplied value overwrites and an absent one keeps the camera's; id, counters and last-seen time never change |
| CounterService.EmptyConfigKeepsCamera | opencv-person-counter/server/person-counter-service.js:141 | a configuration with no keys leaves the cameras as they were |
| CounterService.ForwardZones | opencv-person-counter/server/person-counter-service.js:144-146 | for a known camera with supplied zones, the zones are pushed to the TCP server (`PushZones`); otherwise the server is unchanged |
| CounterService.PersonCounterService.constructor | opencv-person-counter/server/person-counter-service.js:5-14 | a fresh TCP server on port 8888, zero counts, no cameras or alarms |
| CounterService.PersonCounterService.CreateAlarm | opencv-person-counter/server/person-counter-service.js:106-122 | the log becomes `Record(log, alarm)` and `alarm_created` is announced; nothing else changes |
| CounterService.PersonCounterService.OnCameraRegistered | opencv-person-counter/server/person-counter-service.js:17-39 | performs `OnRegistered` in place |
| CounterService.PersonCounterService.OnPersonEntered | opencv-person-counter/server/person-counter-service.js:41-67 | performs `OnCrossing` for an entry in place |
| CounterService.PersonCounterService.OnPersonExited | opencv-person-counter/server/person-counter-service.js:69-95 | performs `OnCrossing` for an exit in place |
| CounterService.PersonCounterService.OnCameraStatusChanged | opencv-person-counter/server/person-counter-service.js:97-103 | performs `OnStatusChanged` in place |
| CounterService.PersonCounterService.HandleServerEvent | opencv-person-counter/server/person-counter-service.js:16-104 | runs the subscribed handler of one event to completion |
| CounterService.PersonCounterService.HandleServerEvents | opencv-person-counter/server/person-counter-service.js:16-104 | runs the handlers of the emitted events in order: the new state is `HandleAll` |
| CounterService.PersonCounterService.OnCameraData | opencv-person-counter/server/tcp-server.js:20-37 | a chunk from a node: the server frames and handles it, and the service state is `HandleAll` of the events emitted |
| CounterService.PersonCounterService.OnCameraClose | opencv-person-counter/server/tcp-server.js:39-51 | a socket close: the server's cameras go offline and the service follows each status change |
| CounterService.PersonCounterService.SweepCameras | opencv-person-counter/server/tcp-server.js:170-181 | the liveness sweep, with the service following each status change |
| CounterService.PersonCounterService.ResetCounter | opencv-person-counter/server/person-counter-service.js:152-170 | the `forEach` reset loop performs `Reset` in place |
| CounterService.PersonCounterService.UpdateCameraConfig | opencv-person-counter/server/person-counter-service.js:138-150 | performs `UpdateConfig`, and forwards zones to the server as `ForwardZones` says |
| CounterService.PersonCounterService.GetCurrentStats | opencv-person-counter/server/person-counter-service.js:128-136 | the counters, every camera in order, and the first min(10, length) alarms of the log; nothing changes |
| OpenCvService.IsInZoneDoubled | server/opencv-service.js:82-90 | for integer boxes, the inclusive centre test equals the doubled-integer comparison on all four bounds |
| OpenCvService.ResolveZoneRules | server/opencv-service.js:61-66 | a disabled zone is never chosen; entry wins when both hold the centre; none iff neither enabled zone holds it |
| OpenCvService.DirectionOf | server/opencv-service.js:72 | the direction is `in` exactly for the entry zone |
| OpenCvService.Simulate | server/opencv-service.js:47-79 | at most one detection, present iff a box was drawn and a zone holds it, with the resolved zone and its direction |
| OpenCvService.FallbackZonesNeverMatch | server/opencv-service.js:27-30 | the fallback zones lack `enabled`, so no detection is ever placed in them |
| OpenCvService.Detected | server/opencv-service.js:123-156 | unknown camera: no change, nothing emitted; otherwise an alarm iff the crossing is against the camera's type, the count up on `in` or down clamped at 0 on `out`, then one `person_detected` with the new count |
| OpenCvService.NoAlarmWithoutRole | server/opencv-service.js:128-142 | a camera of type `both` or without a type never raises the alarm |
| OpenCvService.DetectedAll | server/opencv-service.js:123-156 | detections never change the camera map |
| OpenCvService.DetectedAllCount | server/opencv-service.js:145-149 | over detections at known cameras, `personCount` is the clamped running count of their directions |
| OpenCvService.OpenCvPersonCounter.constructor | server/opencv-service.js:6-11 | no cameras, inactive, count zero |
| OpenCvService.OpenCvPersonCounter.InitCamera | server/opencv-service.js:14-34 | the camera is (re)defined with the given zones, or the fallback ones, and `camera_initialized` is emitted |
| OpenCvService.OpenCvPersonCounter.StartDetection | server/opencv-service.js:93-111 | a no-op while active; otherwise the flag is set and the interval scheduled |
| OpenCvService.OpenCvPersonCounter.StopDetection | server/opencv-service.js:114-120 | the flag is cleared and the interval cancelled, whatever the state |
| OpenCvService.OpenCvPersonCounter.HandlePersonDetection | server/opencv-service.js:123-156 | performs `Detected` in place |
| CameraNode.ZoneAtFirstEligible | raspberry-pi/camera-node.py:79-88 | `get_zone` returns the first enabled zone containing the point (all edges inclusive), and `None` iff there is none |
| CameraNode.DisabledNeverReturned | raspberry-pi/camera-node.py:82-83 | a zone whose `enabled` is false or missing is never returned |
| CameraNode.GetZone | raspberry-pi/camera-node.py:79-88 | the early-return scan computes `ZoneAt` |
| CameraNode.DetectionsSound | raspberry-pi/camera-node.py:56-77 | exactly the passing boxes are kept, in order: size in range, integer centre `x + w // 2`, the zone `get_zone` gives, and the box's own weight |
| CameraNode.EveryBoxPasses | raspberry-pi/camera-node.py:56-77 | when every box passes, there is one detection per box in order, and the as-written confidence agrees with the intended one |
| CameraNode.AsWrittenMisattributesConfidence | raspberry-pi/camera-node.py:73 | a dropped box followed by a kept one gives the kept one the dropped box's weight, as written |
| CameraNode.DetectPersons | raspberry-pi/camera-node.py:56-77 | the filter loop, as written, computes `DetectionsAsWritten`: the passing boxes in order, each with confidence `weights[len(detections)]` (0.8 past the end) |
| CameraNode.AsWrittenRelabels | raspberry-pi/camera-node.py:56-77 | the as-written detections are the intended ones, same number and order, with the k-th confidence replaced by the weight at position k |
| CameraNode.EvenBoxesAgree | raspberry-pi/camera-node.py:59-60 | for even widths and heights the node's floor centre and the server service's real centre judge containment alike |
| CameraNode.OddWidthDisagrees | raspberry-pi/camera-node.py:59-60 | for an odd width the two centres can disagree on a zone edge |
| CameraNode.FrameAllIsFrames | raspberry-pi/camera-node.py:152 | the bytes of successive `send_data` calls are the newline framing of their messages |
| CameraNode.NodeStreamRoundTrip | raspberry-pi/camera-node.py:152 | newline-free messages sent by the node come out of the server's framer exactly and in order, with an empty residual, however the stream is chunked |
| CameraNode.NodeLink.constructor | raspberry-pi/camera-node.py:99 | nothing sent yet |
| CameraNode.NodeLink.SendData | raspberry-pi/camera-node.py:148-156 | with a socket, the message and exactly one newline are written; without one, nothing is |

## Left out

- Sockets, `listen`, `start`/`stop`, and the timers are not modelled. Socket writes are
  entries appended to a log. The 30-second sweep timer is the method
  `CleanupOfflineCameras(now)`, which the environment calls.
- JSON encoding and decoding (RFC 8259) are not modelled. Decoding is a parameter
  returning `Option`.
  - A message whose missing fields would make a handler throw (inside the same `try`)
    is modelled as the decoder returning `None`.
  - `json.dumps` escaping raw newlines is taken as the precondition of
    `NodeStreamRoundTrip`.
- Exceptions from `socket.write`/`socket.send` and the node's reconnect are not
  modelled: a write always lands in the log.
- CameraNode.NodeStreamRoundTrip: `socket.send` (raspberry-pi/camera-node.py:153) may
  write only part of its buffer, and the node ignores the count it returns. The round
  trips assume every send writes its whole message.
- Framing.ChunkBoundaryIndependence: the server decodes each chunk on its own with
  `data.toString()` (opencv-person-counter/server/tcp-server.js:21). The model frames
  characters, so a UTF-8 sequence split across two chunks is not modelled. The node
  sends ASCII JSON only.
- CameraServer.RecordDetections: in the source, a batch that throws part-way (a `null`
  item, say) keeps what happened before the throw. That is the batch
  length already added to `detections`, `lastSeen`, and the counts and events of earlier
  items (opencv-person-counter/server/tcp-server.js:140-160). The model treats such a
  batch as undecodable, so it has no effect at all.
- Wall-clock time (`new Date()`, `Date.now()`, `datetime.now()`) is the parameter `now`,
  in milliseconds.
- Alarm ids are `DecimalString(now)`, so two alarms in the same millisecond share an id.
  No uniqueness is claimed.
- Floating-point values (sensitivity, confidence, random draws) are Dafny `real`s, and
  JavaScript numbers used as counters are unbounded integers. The 0.5 rescaling and the
  `int()` truncation of detector boxes happen before the modelled loop; its input is the
  already-rescaled boxes.
- Not modelled, because they are foreign calls:
  - HOG detection, background subtraction, `cv2.resize` and frame capture;
  - the `opencv4nodejs` import;
  - the `Math.random` draws, which are parameters of `Simulate`;
  - the node's run loop, heartbeat timer and argument parsing.
- The emitter fan-out to WebSocket clients, the REST layer (`index.js`) and all UI code
  are left out. The service's emitted notifications are a sequence.
- CounterService.UpdateConfig: only the keys of `CameraConfig` are merged. A request
  that carries `id`, counters, `lastSeen` or unknown keys would overwrite those through
  `Object.assign`; this is not modelled.
- OpenCvService.OpenCvPersonCounter.InitCamera: only `name`, `type` and `zones` of the
  spread `config` are kept. `initPersonDetector` and `getStatus` are not modelled.
- The detection interval body of `startDetection` is not modelled beyond the `ticking`
  flag. `initCamera` always sets `capture: null`, so the body never detects anything.
- The node's `zones` dict is a sequence in iteration order. Unique names are not
  enforced.

## Findings

| source | as written | input that shows it | evidently intended | confidence | as-written member | corrected member |
|---|---|---|---|---|---|---|
| raspberry-pi/camera-node.py:73 | each kept detection's confidence is `weights[len(detections)]`, indexed by the number of detections kept so far | boxes `(0,0,10,10)`, `(100,200,60,100)` with weights `0.1`, `0.9`, sizes 50..200 and the default zones: the first box is dropped by the size filter, and the kept box gets `0.1` | the weight of the box itself, `weights[i]` for the box at position `i` (the detector returns boxes and weights side by side) | high; not executed | CameraNode.DetectPersons, CameraNode.AsWrittenRelabels, CameraNode.AsWrittenMisattributesConfidence | CameraNode.DetectionsOf, CameraNode.DetectionsSound |

/**
 * The edge side of the protocol (raspberry-pi/camera-node.py): the zone lookup
 * `get_zone`, the size/centre/zone filter loop of `detect_persons` over the boxes the
 * people detector returned, and the newline framing of `send_data`.
 */
module CameraNode {
  import opened Wrappers
  import opened Types
  import opened Framing
  import OpenCvService

  /** One entry of the node's `zones` dict, in the dict's iteration order. */
  datatype NamedZone = NamedZone(name: string, config: Zone)

  /**
   * A zone `get_zone` may return for the point: its `enabled` flag is set (a missing
   * flag reads as false) and the point lies in the rectangle, all four edges inclusive.
   */
  predicate Eligible(z: NamedZone, x: int, y: int) {
    && z.config.enabled
    && z.config.x <= x <= z.config.x + z.config.width
    && z.config.y <= y <= z.config.y + z.config.height
  }

  /** The name of the first eligible zone, in iteration order, or none. */
  function ZoneAt(zones: seq<NamedZone>, x: int, y: int): Option<string>
    decreases |zones|
  {
    if zones == [] then None
    else if Eligible(zones[0], x, y) then Some(zones[0].name)
    else ZoneAt(zones[1..], x, y)
  }

  /**
   * `get_zone` returns the first eligible zone and nothing else: a name it returns
   * belongs to an enabled zone holding the point with no eligible zone before it, and it
   * returns `None` exactly when no zone is eligible.
   */
  lemma {:induction false} ZoneAtFirstEligible(zones: seq<NamedZone>, x: int, y: int)
    ensures ZoneAt(zones, x, y).None? <==> forall i :: 0 <= i < |zones| ==> !Eligible(zones[i], x, y)
    ensures ZoneAt(zones, x, y).Some? ==>
              exists i :: 0 <= i < |zones| && Eligible(zones[i], x, y) && zones[i].name == ZoneAt(zones, x, y).value
                          && forall j :: 0 <= j < i ==> !Eligible(zones[j], x, y)
    decreases |zones|
  {
    if zones != [] && !Eligible(zones[0], x, y) {
      var rest := zones[1..];
      ZoneAtFirstEligible(rest, x, y);
      assert forall i :: 1 <= i < |zones| ==> zones[i] == rest[i - 1];
      if ZoneAt(rest, x, y).Some? {
        var i :| 0 <= i < |rest| && Eligible(rest[i], x, y) && rest[i].name == ZoneAt(rest, x, y).value
                 && forall j :: 0 <= j < i ==> !Eligible(rest[j], x, y);
        assert Eligible(zones[i + 1], x, y) && forall j :: 0 <= j < i + 1 ==> !Eligible(zones[j], x, y);
      }
    } else if zones != [] {
      assert Eligible(zones[0], x, y);
    }
  }

  /** A zone whose `enabled` flag is false or missing is never returned, whatever the point. */
  lemma DisabledNeverReturned(zones: seq<NamedZone>, x: int, y: int)
    requires forall i :: 0 <= i < |zones| ==> !zones[i].config.enabled
    ensures ZoneAt(zones, x, y).None?
  {
    ZoneAtFirstEligible(zones, x, y);
  }

  /** `PersonDetector.get_zone`: an early-return scan over the zones. */
  method GetZone(zones: seq<NamedZone>, x: int, y: int) returns (zone: Option<string>)
    ensures zone == ZoneAt(zones, x, y)
  {
    var i := 0;
    while i < |zones|
      invariant 0 <= i <= |zones|
      invariant ZoneAt(zones, x, y) == ZoneAt(zones[i..], x, y)
    {
      var z := zones[i];
      assert zones[i..][1..] == zones[i + 1..];
      if !z.config.enabled {
        i := i + 1;
        continue;
      }
      if z.config.x <= x <= z.config.x + z.config.width && z.config.y <= y <= z.config.y + z.config.height {
        return Some(z.name);
      }
      i := i + 1;
    }
    return None;
  }

  /** A box from the people detector, already scaled back to frame pixels. */
  datatype Rect = Rect(x: int, y: int, w: int, h: int)

  /** One entry of `detections`; the timestamp is not modelled. */
  datatype NodeDetection = NodeDetection(
    x: int, y: int, width: int, height: int, centerX: int, centerY: int, zone: string, confidence: real)

  /** `x + w // 2`: Python's floor division by 2 agrees with Dafny's `/` for a positive divisor. */
  function Centre(x: int, w: int): int {
    x + w / 2
  }

  /** The confidence the detector reported at position `k`, or 0.8 when it reported fewer. */
  function WeightAt(weights: seq<real>, k: nat): real {
    if k < |weights| then weights[k] else 0.8
  }

  /** Whether a box passes the size filter and its centre lands in a zone with a non-empty name (`if zone:`). */
  predicate Passes(b: Rect, zones: seq<NamedZone>, minSize: int, maxSize: int) {
    && minSize <= b.w <= maxSize
    && ZoneAt(zones, Centre(b.x, b.w), Centre(b.y, b.h)).Some?
    && ZoneAt(zones, Centre(b.x, b.w), Centre(b.y, b.h)).value != ""
  }

  /** What the filter makes of one box, given the confidence to attach. */
  function Classify(b: Rect, zones: seq<NamedZone>, minSize: int, maxSize: int, confidence: real): Option<NodeDetection> {
    if Passes(b, zones, minSize, maxSize) then
      var cx, cy := Centre(b.x, b.w), Centre(b.y, b.h);
      Some(NodeDetection(b.x, b.y, b.w, b.h, cx, cy, ZoneAt(zones, cx, cy).value, confidence))
    else None
  }

  /**
   * The detections of the filter loop as the source writes it: the confidence attached
   * is the weight at position `len(detections)`, the number of detections kept so far,
   * rather than the position of the box itself.
   */
  function DetectionsAsWritten(boxes: seq<Rect>, weights: seq<real>, zones: seq<NamedZone>, minSize: int, maxSize: int)
    : seq<NodeDetection>
    decreases |boxes|
  {
    if boxes == [] then []
    else
      var before := DetectionsAsWritten(boxes[..|boxes| - 1], weights, zones, minSize, maxSize);
      var c := Classify(boxes[|boxes| - 1], zones, minSize, maxSize, WeightAt(weights, |before|));
      before + (if c.Some? then [c.value] else [])
  }

  /**
   * The detections of the filter loop with each box's own confidence, `weights[i]` for
   * the box at position `i`: the evidently intended pairing, since the detector returns
   * boxes and weights side by side.
   */
  function DetectionsOf(boxes: seq<Rect>, weights: seq<real>, zones: seq<NamedZone>, minSize: int, maxSize: int)
    : seq<NodeDetection>
    decreases |boxes|
  {
    if boxes == [] then []
    else
      var c := Classify(boxes[|boxes| - 1], zones, minSize, maxSize, WeightAt(weights, |boxes| - 1));
      DetectionsOf(boxes[..|boxes| - 1], weights, zones, minSize, maxSize) + (if c.Some? then [c.value] else [])
  }

  /** A detection as the filter builds it from the box at position `i` and that box's zone and weight. */
  ghost predicate FromBox(d: NodeDetection, boxes: seq<Rect>, i: int, weights: seq<real>, zones: seq<NamedZone>,
                          minSize: int, maxSize: int)
  {
    && 0 <= i < |boxes|
    && var b := boxes[i];
    && d.x == b.x && d.y == b.y && d.width == b.w && d.height == b.h
    && minSize <= d.width <= maxSize
    && d.centerX == b.x + b.w / 2 && d.centerY == b.y + b.h / 2
    && ZoneAt(zones, d.centerX, d.centerY) == Some(d.zone)
    && d.confidence == WeightAt(weights, i)
  }

  /** The positions of the boxes that pass the filter, in ascending order. */
  function Kept(boxes: seq<Rect>, zones: seq<NamedZone>, minSize: int, maxSize: int): seq<nat>
    decreases |boxes|
  {
    if boxes == [] then []
    else
      Kept(boxes[..|boxes| - 1], zones, minSize, maxSize)
        + (if Passes(boxes[|boxes| - 1], zones, minSize, maxSize) then [|boxes| - 1] else [])
  }

  /** The kept positions are in range, strictly increasing, and include every passing box. */
  lemma {:induction false} KeptPositions(boxes: seq<Rect>, zones: seq<NamedZone>, minSize: int, maxSize: int)
    ensures |Kept(boxes, zones, minSize, maxSize)| <= |boxes|
    ensures forall k :: 0 <= k < |Kept(boxes, zones, minSize, maxSize)| ==> Kept(boxes, zones, minSize, maxSize)[k] < |boxes|
    ensures forall k, l :: 0 <= k < l < |Kept(boxes, zones, minSize, maxSize)| ==>
              Kept(boxes, zones, minSize, maxSize)[k] < Kept(boxes, zones, minSize, maxSize)[l]
    ensures forall i :: 0 <= i < |boxes| && Passes(boxes[i], zones, minSize, maxSize) ==> i in Kept(boxes, zones, minSize, maxSize)
    decreases |boxes|
  {
    if boxes != [] {
      var n := |boxes| - 1;
      var init := boxes[..n];
      KeptPositions(init, zones, minSize, maxSize);
      var kb, ka := Kept(init, zones, minSize, maxSize), Kept(boxes, zones, minSize, maxSize);
      assert forall i :: 0 <= i < n ==> boxes[i] == init[i];
      if Passes(boxes[n], zones, minSize, maxSize) {
        assert ka == kb + [n];
      } else {
        assert ka == kb + [];
      }
    }
  }

  /** The k-th detection is built from the box at the k-th kept position. */
  lemma {:induction false} DetectionsFromKept(boxes: seq<Rect>, weights: seq<real>, zones: seq<NamedZone>, minSize: int, maxSize: int)
    ensures |Kept(boxes, zones, minSize, maxSize)| == |DetectionsOf(boxes, weights, zones, minSize, maxSize)|
    ensures forall k :: 0 <= k < |Kept(boxes, zones, minSize, maxSize)| ==>
              FromBox(DetectionsOf(boxes, weights, zones, minSize, maxSize)[k], boxes, Kept(boxes, zones, minSize, maxSize)[k],
                      weights, zones, minSize, maxSize)
    decreases |boxes|
  {
    if boxes != [] {
      var n := |boxes| - 1;
      var init := boxes[..n];
      DetectionsFromKept(init, weights, zones, minSize, maxSize);
      var before, kb := DetectionsOf(init, weights, zones, minSize, maxSize), Kept(init, zones, minSize, maxSize);
      var all, ka := DetectionsOf(boxes, weights, zones, minSize, maxSize), Kept(boxes, zones, minSize, maxSize);
      if Passes(boxes[n], zones, minSize, maxSize) {
        assert ka == kb + [n] && all == before + [all[|kb|]];
        assert FromBox(all[|kb|], boxes, n, weights, zones, minSize, maxSize);
      } else {
        assert ka == kb + [] && all == before + [];
      }
      forall k | 0 <= k < |kb| ensures FromBox(all[k], boxes, ka[k], weights, zones, minSize, maxSize) {
        assert all[k] == before[k] && ka[k] == kb[k];
        assert FromBox(before[k], init, kb[k], weights, zones, minSize, maxSize);
        assert boxes[kb[k]] == init[kb[k]];
      }
    }
  }

  /**
   * The filter keeps exactly the passing boxes, in their order: the k-th detection is
   * built from the k-th passing box, in range, with its integer centre, carrying the
   * zone `get_zone` gives for that centre and that box's own weight; and every passing
   * box is kept.
   */
  lemma DetectionsSound(boxes: seq<Rect>, weights: seq<real>, zones: seq<NamedZone>, minSize: int, maxSize: int)
    ensures |Kept(boxes, zones, minSize, maxSize)| == |DetectionsOf(boxes, weights, zones, minSize, maxSize)| <= |boxes|
    ensures forall k :: 0 <= k < |Kept(boxes, zones, minSize, maxSize)| ==>
              FromBox(DetectionsOf(boxes, weights, zones, minSize, maxSize)[k], boxes, Kept(boxes, zones, minSize, maxSize)[k],
                      weights, zones, minSize, maxSize)
    ensures forall k, l :: 0 <= k < l < |Kept(boxes, zones, minSize, maxSize)| ==>
              Kept(boxes, zones, minSize, maxSize)[k] < Kept(boxes, zones, minSize, maxSize)[l]
    ensures forall i :: 0 <= i < |boxes| && Passes(boxes[i], zones, minSize, maxSize) ==> i in Kept(boxes, zones, minSize, maxSize)
  {
    KeptPositions(boxes, zones, minSize, maxSize);
    DetectionsFromKept(boxes, weights, zones, minSize, maxSize);
  }

  /** When every box passes, there is one detection per box, in box order, and the two pairings agree. */
  lemma {:induction false} EveryBoxPasses(boxes: seq<Rect>, weights: seq<real>, zones: seq<NamedZone>, minSize: int, maxSize: int)
    requires forall i :: 0 <= i < |boxes| ==> Passes(boxes[i], zones, minSize, maxSize)
    ensures |DetectionsOf(boxes, weights, zones, minSize, maxSize)| == |boxes|
    ensures forall i :: 0 <= i < |boxes| ==>
              DetectionsOf(boxes, weights, zones, minSize, maxSize)[i]
                == Classify(boxes[i], zones, minSize, maxSize, WeightAt(weights, i)).value
    ensures DetectionsAsWritten(boxes, weights, zones, minSize, maxSize) == DetectionsOf(boxes, weights, zones, minSize, maxSize)
    decreases |boxes|
  {
    if boxes != [] {
      EveryBoxPasses(boxes[..|boxes| - 1], weights, zones, minSize, maxSize);
    }
  }

  /** The zones the node starts with, before the server pushes any. */
  const NodeDefaultZones: seq<NamedZone> :=
    [NamedZone("entry", Zone(true, 100, 200, 300, 100)), NamedZone("exit", Zone(true, 500, 200, 300, 100))]

  /**
   * A narrow box that the size filter drops, followed by a box in the entry zone: as
   * written, the kept box is given the dropped box's weight 0.1 instead of its own 0.9.
   */
  lemma AsWrittenMisattributesConfidence()
    ensures var boxes, weights := [Rect(0, 0, 10, 10), Rect(100, 200, 60, 100)], [0.1, 0.9];
            && DetectionsAsWritten(boxes, weights, NodeDefaultZones, 50, 200)
                 == [NodeDetection(100, 200, 60, 100, 130, 250, "entry", 0.1)]
            && DetectionsOf(boxes, weights, NodeDefaultZones, 50, 200)
                 == [NodeDetection(100, 200, 60, 100, 130, 250, "entry", 0.9)]
  {
    var boxes, weights := [Rect(0, 0, 10, 10), Rect(100, 200, 60, 100)], [0.1, 0.9];
    assert boxes[..1] == [Rect(0, 0, 10, 10)];
    assert boxes[..1][..0] == [];
    assert ZoneAt(NodeDefaultZones, 130, 250) == Some("entry");
  }

  /**
   * The as-written detections are the intended ones with the k-th confidence replaced by
   * the weight at position k: same number, same boxes, centres and zones, in the same order.
   */
  lemma {:induction false} AsWrittenRelabels(boxes: seq<Rect>, weights: seq<real>, zones: seq<NamedZone>, minSize: int, maxSize: int)
    ensures |DetectionsAsWritten(boxes, weights, zones, minSize, maxSize)| == |DetectionsOf(boxes, weights, zones, minSize, maxSize)|
    ensures forall k :: 0 <= k < |DetectionsOf(boxes, weights, zones, minSize, maxSize)| ==>
              DetectionsAsWritten(boxes, weights, zones, minSize, maxSize)[k]
                == DetectionsOf(boxes, weights, zones, minSize, maxSize)[k].(confidence := WeightAt(weights, k))
    decreases |boxes|
  {
    if boxes != [] {
      var init, b := boxes[..|boxes| - 1], boxes[|boxes| - 1];
      AsWrittenRelabels(init, weights, zones, minSize, maxSize);
      var aw, co := DetectionsAsWritten(init, weights, zones, minSize, maxSize), DetectionsOf(init, weights, zones, minSize, maxSize);
      var all := DetectionsOf(boxes, weights, zones, minSize, maxSize);
      var allAw := DetectionsAsWritten(boxes, weights, zones, minSize, maxSize);
      if Passes(b, zones, minSize, maxSize) {
        var x := Classify(b, zones, minSize, maxSize, WeightAt(weights, |boxes| - 1)).value;
        var y := Classify(b, zones, minSize, maxSize, WeightAt(weights, |aw|)).value;
        assert all == co + [x] && allAw == aw + [y];
        assert y == x.(confidence := WeightAt(weights, |co|));
      } else {
        assert all == co + [] && allAw == aw + [];
      }
    }
  }

  /** The filter loop of `detect_persons`, as written: each kept box takes the weight at `len(detections)`. */
  method DetectPersons(boxes: seq<Rect>, weights: seq<real>, zones: seq<NamedZone>, minSize: int, maxSize: int)
    returns (detections: seq<NodeDetection>)
    ensures detections == DetectionsAsWritten(boxes, weights, zones, minSize, maxSize)
  {
    detections := [];
    var i := 0;
    while i < |boxes|
      invariant 0 <= i <= |boxes|
      invariant detections == DetectionsAsWritten(boxes[..i], weights, zones, minSize, maxSize)
    {
      var b := boxes[i];
      assert boxes[..i + 1][..i] == boxes[..i];
      if minSize <= b.w <= maxSize {
        var centerX := b.x + b.w / 2;
        var centerY := b.y + b.h / 2;
        var zone := GetZone(zones, centerX, centerY);
        if zone.Some? && zone.value != "" {
          var confidence := if |detections| < |weights| then weights[|detections|] else 0.8;
          detections := detections + [NodeDetection(b.x, b.y, b.w, b.h, centerX, centerY, zone.value, confidence)];
        }
      }
      i := i + 1;
    }
    assert boxes[..|boxes|] == boxes;
  }

  /**
   * On boxes of even width and height the node's integer centre and the server-side
   * service's real centre coincide, so both judge containment in a zone alike.
   */
  lemma EvenBoxesAgree(b: Rect, z: Zone)
    requires b.w % 2 == 0 && b.h % 2 == 0
    ensures (z.x <= Centre(b.x, b.w) <= z.x + z.width && z.y <= Centre(b.y, b.h) <= z.y + z.height)
        <==> OpenCvService.IsInZone(OpenCvService.Box(b.x as real, b.y as real, b.w as real, b.h as real), z)
  {
    OpenCvService.IsInZoneDoubled(b.x, b.y, b.w, b.h, z);
  }

  /** On an odd width the two centres differ: the node rounds down and may place a box the service would not. */
  lemma OddWidthDisagrees()
    ensures var b, z := Rect(0, 0, 3, 0), Zone(true, 0, 0, 1, 0);
            && (z.x <= Centre(b.x, b.w) <= z.x + z.width && z.y <= Centre(b.y, b.h) <= z.y + z.height)
            && !OpenCvService.IsInZone(OpenCvService.Box(0.0, 0.0, 3.0, 0.0), z)
  {
  }

  // ---------------------------------------------------------------- framing of send_data

  /** `json.dumps(data) + '\n'`: one message on the wire. */
  function Frame(payload: string): string {
    payload + [Newline]
  }

  /** The bytes written for a sequence of messages, in order. */
  function FrameAll(payloads: seq<string>): string
    decreases |payloads|
  {
    if payloads == [] then "" else FrameAll(payloads[..|payloads| - 1]) + Frame(payloads[|payloads| - 1])
  }

  lemma {:induction false} FrameAllIsFrames(payloads: seq<string>)
    ensures FrameAll(payloads) == Frames(payloads)
    decreases |payloads|
  {
    if payloads != [] {
      var init, last := payloads[..|payloads| - 1], payloads[|payloads| - 1];
      FrameAllIsFrames(init);
      FramesAppend(init, [last]);
      assert payloads == init + [last];
      assert Frames([last]) == last + [Newline] + Frames([]);
    }
  }

  /**
   * Producer to consumer: the stream the node writes, however the network cuts it into
   * chunks, is handed by the server's framer back as exactly the messages written, in
   * order, with nothing left over, provided no message text holds a raw newline (as
   * `json.dumps` guarantees by escaping it).
   */
  lemma NodeStreamRoundTrip(payloads: seq<string>, chunks: seq<string>)
    requires AllNoNewline(payloads)
    requires Concat(chunks) == FrameAll(payloads)
    ensures Replay("", chunks) == Fed(payloads, "")
  {
    FrameAllIsFrames(payloads);
    FramedPayloadsRoundTrip(payloads, chunks);
  }

  /** The sending half of the node's connection. */
  class NodeLink {
    /** Whether `self.socket` is set. */
    var connected: bool
    /** Every byte written to the socket so far. */
    var sent: string
    /** The messages those bytes carry. */
    ghost var messages: seq<string>

    ghost predicate Valid()
      reads this
    {
      sent == FrameAll(messages)
    }

    constructor (connected: bool)
      ensures Valid() && this.connected == connected && sent == "" && messages == []
    {
      this.connected := connected;
      sent := "";
      messages := [];
    }

    /** `send_data`: with a socket, the message and one newline are written; without one, nothing is. */
    method SendData(payload: string)
      requires Valid()
      modifies this
      ensures Valid() && connected == old(connected)
      ensures connected ==> sent == old(sent) + payload + "\n" && messages == old(messages) + [payload]
      ensures !connected ==> sent == old(sent) && messages == old(messages)
    {
      if connected {
        var message := payload + "\n";
        sent := sent + message;
        messages := messages + [payload];
        assert messages[..|messages| - 1] == old(messages);
      }
    }
  }
}

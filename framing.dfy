/**
 * Newline framing of the camera protocol. The camera node writes every message as
 * its JSON text followed by one '\n' (raspberry-pi/camera-node.py `send_data`); the
 * server keeps, per connection, a residual buffer that it appends each chunk to,
 * splits on '\n', and keeps the last piece of (the socket `data` handler of
 * opencv-person-counter/server/tcp-server.js).
 */
module Framing {
  const Newline: char := '\n'

  predicate NoNewline(s: string) {
    Newline !in s
  }

  predicate AllNoNewline(lines: seq<string>) {
    forall i :: 0 <= i < |lines| ==> Newline !in lines[i]
  }

  /** The byte stream a producer writes for `lines`: each one followed by exactly one newline. */
  function Frames(lines: seq<string>): string
  {
    if lines == [] then "" else lines[0] + [Newline] + Frames(lines[1..])
  }

  /** All pieces of a split but the last one. */
  function Init(parts: seq<string>): seq<string>
    requires |parts| >= 1
  {
    parts[..|parts| - 1]
  }

  function Last(parts: seq<string>): string
    requires |parts| >= 1
  {
    parts[|parts| - 1]
  }

  /**
   * JavaScript's `s.split('\n')`: the maximal newline-free pieces between newlines,
   * always at least one (the empty string splits into `[""]`).
   */
  function Split(s: string): (parts: seq<string>)
    ensures |parts| >= 1
    ensures AllNoNewline(parts)
    ensures Frames(Init(parts)) + Last(parts) == s
    decreases |s|
  {
    if |s| == 0 then [""]
    else
      var rest := Split(s[1..]);
      if s[0] == Newline then
        SplitAtNewline(s, rest);
        [""] + rest
      else
        SplitAtChar(s, rest);
        [[s[0]] + rest[0]] + rest[1..]
  }

  /** The step of `Split` at a leading newline: an empty first piece is added. */
  lemma SplitAtNewline(s: string, rest: seq<string>)
    requires |s| >= 1 && s[0] == Newline
    requires |rest| >= 1 && Frames(Init(rest)) + Last(rest) == s[1..]
    ensures Frames(Init([""] + rest)) + Last([""] + rest) == s
  {
    assert Init([""] + rest) == [""] + Init(rest);
    FramesCons("", Init(rest));
    assert s == [s[0]] + s[1..];
  }

  /** The step of `Split` at a leading ordinary character: it joins the first piece. */
  lemma SplitAtChar(s: string, rest: seq<string>)
    requires |s| >= 1 && s[0] != Newline
    requires |rest| >= 1 && AllNoNewline(rest) && Frames(Init(rest)) + Last(rest) == s[1..]
    ensures AllNoNewline([[s[0]] + rest[0]] + rest[1..])
    ensures Frames(Init([[s[0]] + rest[0]] + rest[1..])) + Last([[s[0]] + rest[0]] + rest[1..]) == s
  {
    var head := [s[0]] + rest[0];
    var parts := [head] + rest[1..];
    assert Newline !in head;
    assert s == [s[0]] + s[1..];
    if |rest| > 1 {
      assert Init(parts) == [head] + Init(rest)[1..];
      assert Init(rest) == [rest[0]] + Init(rest)[1..];
      FramesCons(head, Init(rest)[1..]);
      FramesCons(rest[0], Init(rest)[1..]);
    }
  }

  lemma FramesCons(line: string, lines: seq<string>)
    ensures Frames([line] + lines) == line + [Newline] + Frames(lines)
  {
    assert ([line] + lines)[1..] == lines;
  }

  lemma {:induction false} FramesAppend(a: seq<string>, b: seq<string>)
    ensures Frames(a + b) == Frames(a) + Frames(b)
    decreases |a|
  {
    if a != [] {
      assert (a + b)[1..] == a[1..] + b;
      FramesAppend(a[1..], b);
    } else {
      assert a + b == b;
    }
  }

  /** Index of the first newline of `s`, or `|s|` when there is none. */
  function FirstNewline(s: string): nat
    decreases |s|
  {
    if |s| == 0 then 0 else if s[0] == Newline then 0 else 1 + FirstNewline(s[1..])
  }

  lemma {:induction false} FirstNewlineAfter(x: string, t: string)
    requires NoNewline(x)
    requires t == [] || t[0] == Newline
    ensures FirstNewline(x + t) == |x|
    decreases |x|
  {
    if x != [] {
      assert (x + t)[1..] == x[1..] + t;
      FirstNewlineAfter(x[1..], t);
    } else {
      assert x + t == t;
    }
  }

  /** Where the first newline of a framed stream with residual `rest` lies. */
  lemma FirstNewlineOfFrames(lines: seq<string>, rest: string)
    requires AllNoNewline(lines) && NoNewline(rest)
    ensures lines == [] ==> FirstNewline(Frames(lines) + rest) == |rest|
    ensures lines != [] ==> FirstNewline(Frames(lines) + rest) == |lines[0]| < |Frames(lines) + rest|
  {
    if lines == [] {
      FirstNewlineAfter(rest, []);
      assert Frames(lines) + rest == rest + [];
    } else {
      var t := [Newline] + Frames(lines[1..]) + rest;
      assert Frames(lines) + rest == lines[0] + t;
      FirstNewlineAfter(lines[0], t);
    }
  }

  /**
   * A framed stream determines its lines and residual: two framings of the same
   * text, with newline-free lines and residuals, are the same framing.
   */
  lemma {:induction false} FramesUnique(a: seq<string>, ra: string, b: seq<string>, rb: string)
    requires AllNoNewline(a) && AllNoNewline(b) && NoNewline(ra) && NoNewline(rb)
    requires Frames(a) + ra == Frames(b) + rb
    ensures a == b && ra == rb
    decreases |a|
  {
    FirstNewlineOfFrames(a, ra);
    FirstNewlineOfFrames(b, rb);
    if a == [] || b == [] {
      assert a == [] && b == [];
      assert Frames(a) + ra == ra && Frames(b) + rb == rb;
    } else {
      var s := Frames(a) + ra;
      var n := |a[0]|;
      assert s == a[0] + ([Newline] + (Frames(a[1..]) + ra));
      assert s == b[0] + ([Newline] + (Frames(b[1..]) + rb));
      assert a[0] == s[..n] == b[0];
      assert Frames(a[1..]) + ra == s[n + 1..] == Frames(b[1..]) + rb;
      FramesUnique(a[1..], ra, b[1..], rb);
      assert a == [a[0]] + a[1..];
      assert b == [b[0]] + b[1..];
    }
  }

  /** Any split-shaped decomposition of a framed stream is its lines followed by its residual. */
  lemma SplitShaped(parts: seq<string>, lines: seq<string>, rest: string)
    requires |parts| >= 1 && AllNoNewline(parts) && AllNoNewline(lines) && NoNewline(rest)
    requires Frames(Init(parts)) + Last(parts) == Frames(lines) + rest
    ensures parts == lines + [rest]
  {
    var init, last := Init(parts), Last(parts);
    assert AllNoNewline(init) by {
      forall i | 0 <= i < |init| ensures Newline !in init[i] {
        assert init[i] == parts[i];
      }
    }
    FramesUnique(init, last, lines, rest);
    assert parts == init + [last];
  }

  /** Splitting a framed stream gives its lines back, followed by its residual. */
  lemma SplitFrames(lines: seq<string>, rest: string)
    requires AllNoNewline(lines) && NoNewline(rest)
    ensures Split(Frames(lines) + rest) == lines + [rest]
  {
    SplitShaped(Split(Frames(lines) + rest), lines, rest);
  }

  /** What one `data` event yields: the complete lines, and the new residual buffer. */
  datatype Fed = Fed(lines: seq<string>, residual: string)

  /**
   * One `data` event: `buffer += chunk; lines = buffer.split('\n'); buffer = lines.pop()`.
   * No character is lost: the lines, each put back with its newline, followed by the
   * residual, are exactly the old buffer followed by the chunk; and the residual never
   * holds a newline.
   */
  function Feed(buffer: string, chunk: string): (f: Fed)
    ensures AllNoNewline(f.lines) && NoNewline(f.residual)
    ensures Frames(f.lines) + f.residual == buffer + chunk
  {
    var parts := Split(buffer + chunk);
    Fed(Init(parts), Last(parts))
  }

  function Concat(chunks: seq<string>): string
    decreases |chunks|
  {
    if chunks == [] then "" else Concat(chunks[..|chunks| - 1]) + chunks[|chunks| - 1]
  }

  /** The lines delivered, in order, and the final residual, over successive chunks of one connection. */
  function Replay(buffer: string, chunks: seq<string>): Fed
    decreases |chunks|
  {
    if chunks == [] then Fed([], buffer)
    else
      var before := Replay(buffer, chunks[..|chunks| - 1]);
      var step := Feed(before.residual, chunks[|chunks| - 1]);
      Fed(before.lines + step.lines, step.residual)
  }

  lemma AllNoNewlineAppend(a: seq<string>, b: seq<string>)
    requires AllNoNewline(a) && AllNoNewline(b)
    ensures AllNoNewline(a + b)
  {
    forall i | 0 <= i < |a + b| ensures Newline !in (a + b)[i] {
      if i >= |a| { assert (a + b)[i] == b[i - |a|]; }
    }
  }

  /** Framing one run of lines after another continues the stream the first run's residual began. */
  lemma FramesChain(l1: seq<string>, r1: string, l2: seq<string>, r2: string, x: string, y: string)
    requires Frames(l1) + r1 == x && Frames(l2) + r2 == r1 + y
    ensures Frames(l1 + l2) + r2 == x + y
  {
    FramesAppend(l1, l2);
    calc {
      Frames(l1 + l2) + r2;
      Frames(l1) + (Frames(l2) + r2);
      Frames(l1) + (r1 + y);
      (Frames(l1) + r1) + y;
    }
  }

  lemma {:induction false} ReplayReassembles(buffer: string, chunks: seq<string>)
    requires NoNewline(buffer)
    ensures AllNoNewline(Replay(buffer, chunks).lines) && NoNewline(Replay(buffer, chunks).residual)
    ensures Frames(Replay(buffer, chunks).lines) + Replay(buffer, chunks).residual == buffer + Concat(chunks)
    decreases |chunks|
  {
    if chunks != [] {
      var prefix, last := chunks[..|chunks| - 1], chunks[|chunks| - 1];
      var before := Replay(buffer, prefix);
      var step := Feed(before.residual, last);
      ReplayReassembles(buffer, prefix);
      assert Replay(buffer, chunks) == Fed(before.lines + step.lines, step.residual);
      AllNoNewlineAppend(before.lines, step.lines);
      FramesChain(before.lines, before.residual, step.lines, step.residual, buffer + Concat(prefix), last);
      assert buffer + Concat(prefix) + last == buffer + Concat(chunks);
    }
  }

  /**
   * Reassembly does not depend on where the chunk boundaries fall: the lines a
   * connection delivers, and the residual it keeps, are those of splitting the whole
   * stream received so far at once.
   */
  lemma ReplayIsSplit(chunks: seq<string>)
    ensures Replay("", chunks) == Fed(Init(Split(Concat(chunks))), Last(Split(Concat(chunks))))
  {
    var parts := Split(Concat(chunks));
    ReplayReassembles("", chunks);
    FramesUnique(Replay("", chunks).lines, Replay("", chunks).residual, Init(parts), Last(parts));
  }

  /** Any two chunkings of the same stream deliver the same lines, in the same order. */
  lemma ChunkBoundaryIndependence(c1: seq<string>, c2: seq<string>)
    requires Concat(c1) == Concat(c2)
    ensures Replay("", c1) == Replay("", c2)
  {
    ReplayIsSplit(c1);
    ReplayIsSplit(c2);
  }

  /**
   * Producer to consumer: a stream of newline-free payloads, each framed with one
   * newline, delivers exactly those payloads in order and leaves an empty residual,
   * however it is cut into chunks.
   */
  lemma FramedPayloadsRoundTrip(payloads: seq<string>, chunks: seq<string>)
    requires AllNoNewline(payloads)
    requires Concat(chunks) == Frames(payloads)
    ensures Replay("", chunks) == Fed(payloads, "")
  {
    ReplayReassembles("", chunks);
    assert Frames(payloads) + "" == Frames(payloads);
    FramesUnique(Replay("", chunks).lines, Replay("", chunks).residual, payloads, "");
  }

  /** The characters `String.prototype.trim` removes: white space and line terminators. */
  predicate IsTrimmed(c: char) {
    c == ' ' || c == '\t' || c == '\n' || c == '\r' || c == '\U{B}' || c == '\U{C}'
    || c == '\U{A0}' || c == '\U{1680}' || ('\U{2000}' <= c <= '\U{200A}')
    || c == '\U{2028}' || c == '\U{2029}' || c == '\U{202F}' || c == '\U{205F}'
    || c == '\U{3000}' || c == '\U{FEFF}'
  }

  /** `!line.trim()`: the line is empty once trimmed. */
  predicate IsBlank(line: string) {
    forall i :: 0 <= i < |line| ==> IsTrimmed(line[i])
  }

  /** The per-connection residual buffer of the socket `data` handler. */
  class LineFramer {
    var buffer: string

    ghost predicate Valid()
      reads this
    {
      NoNewline(buffer)
    }

    /** A new connection starts with `let buffer = ''`. */
    constructor ()
      ensures Valid() && buffer == ""
    {
      buffer := "";
    }

    /** Appends a chunk, returns the complete lines and keeps the incomplete tail. */
    method Push(chunk: string) returns (lines: seq<string>)
      requires Valid()
      modifies this
      ensures Valid()
      ensures Fed(lines, buffer) == Feed(old(buffer), chunk)
    {
      buffer := buffer + chunk;
      var parts := Split(buffer);
      lines := parts[..|parts| - 1];
      buffer := parts[|parts| - 1];
    }
  }
}

/** Cutting the byte stream of a monitored router into BMP messages. */
module BmpFraming {
  import opened Bytes
  import opened Wrappers

  const MIN_BMP_MSG_LEN: nat := 6
  const MAX_BMP_MSG_LEN: nat := 2 * 1024 * 1024

  datatype ErrorKind =
    | TimedOut | Interrupted | Other
    | NotFound | PermissionDenied | ConnectionRefused | ConnectionReset | ConnectionAborted | NotConnected
    | AddrInUse | AddrNotAvailable | BrokenPipe | AlreadyExists | WouldBlock | InvalidInput | InvalidData
    | WriteZero | Unsupported | UnexpectedEof | OutOfMemory | AnythingElse

  predicate IsFatal(kind: ErrorKind) {
    match kind
    case TimedOut => false
    case Interrupted => false
    case Other => false
    case _ => true
  }

  type Status = nat

  /** What the gate reports while a message is awaited. */
  datatype GateEvent = Report(status: Status) | Terminated

  datatype Read = Message(msg: seq<byte>, traceId: byte) | Failure(kind: ErrorKind)

  datatype Next = Received(msg: seq<byte>, status: Option<Status>, traceId: byte) | Ended | Failed(kind: ErrorKind)

  // ---- What the stream says ----

  /** The length a frame announces in its second to fifth byte. */
  function Announced(frame: seq<byte>): nat
    requires |frame| >= 5
  {
    Value(frame[1..5])
  }

  /** A frame: as long as it says, and within bounds. */
  predicate Frame(f: seq<byte>) {
    MIN_BMP_MSG_LEN <= |f| <= MAX_BMP_MSG_LEN && Announced(f) == |f|
  }

  /** The frame the bytes begin with, if they do. */
  function FirstFrame(rest: seq<byte>): (r: Option<seq<byte>>)
    ensures r.Some? <==> exists n :: 0 <= n <= |rest| && Frame(rest[..n])
    ensures r.Some? ==> Frame(r.value) && r.value <= rest
  {
    if |rest| < 5 then None
    else
      var n := Announced(rest);
      if MIN_BMP_MSG_LEN <= n <= MAX_BMP_MSG_LEN && n <= |rest| then
        assert rest[..n][1..5] == rest[1..5];
        Some(rest[..n])
      else
        assert forall m | 5 <= m <= |rest| :: rest[..m][1..5] == rest[1..5];
        None
  }

  /** The message and trace id a frame is handed over as. */
  function Masked(frame: seq<byte>, tracing: bool): (seq<byte>, byte)
    requires frame != []
  {
    if tracing then ([frame[0] % 16] + frame[1..], frame[0] / 16) else (frame, 0)
  }

  function Unmasked(msg: seq<byte>, traceId: byte): seq<int>
    requires msg != []
  {
    [16 * traceId + msg[0]] + msg[1..]
  }

  lemma MaskedRebuilds(frame: seq<byte>, tracing: bool)
    requires frame != []
    ensures var (msg, traceId) := Masked(frame, tracing);
            |msg| == |frame| && Unmasked(msg, traceId) == frame && (tracing ==> msg[0] < 16 && traceId < 16)
  {
    var (msg, traceId) := Masked(frame, tracing);
    assert Unmasked(msg, traceId)[0] == frame[0];
  }

  // ---- Reading ----

  /** Fills the whole buffer, or fails when the stream ends before it is full. */
  method ReadExact(rx: seq<byte>, n: nat) returns (r: Option<seq<byte>>, rx': seq<byte>)
    ensures if n <= |rx| then r == Some(rx[..n]) && rx' == rx[n..] else r == None && rx' == []
  {
    if n <= |rx| {
      r, rx' := Some(rx[..n]), rx[n..];
    } else {
      r, rx' := None, [];
    }
  }

  /** One frame is taken off the stream and handed over if the parser accepts it. If there is none,
      because its length is out of bounds or the stream ends, the error is one that is fatal. */
  method BmpRead(rx: seq<byte>, tracing: bool, parses: seq<byte> -> bool) returns (r: Read, rx': seq<byte>)
    ensures match FirstFrame(rx)
            case Some(frame) =>
              && rx == frame + rx'
              && var (msg, traceId) := Masked(frame, tracing);
                 r == if parses(msg) then Message(msg, traceId) else Failure(Other)
            case None => r == Failure(if |rx| >= 5 && (Announced(rx) < MIN_BMP_MSG_LEN || Announced(rx) > MAX_BMP_MSG_LEN)
                                      then InvalidData else UnexpectedEof)
  {
    var head, body;
    head, rx' := ReadExact(rx, 5);
    if head.None? {
      return Failure(UnexpectedEof), rx';
    }
    var buf := head.value;
    assert buf[1..5] == rx[1..5];
    var traceId: byte := 0;
    if tracing {
      traceId := buf[0] / 16;
      buf := buf[0 := buf[0] % 16];
    }
    var len := Value(buf[1..5]);
    assert buf[1..5] == rx[1..5];
    if !(MIN_BMP_MSG_LEN <= len <= MAX_BMP_MSG_LEN) {
      return Failure(InvalidData), rx';
    }
    body, rx' := ReadExact(rx', len - 5);
    if body.None? {
      return Failure(UnexpectedEof), rx';
    }
    buf := buf + body.value;
    assert rx[..len] == rx[..5] + rx[5..][..len - 5];
    assert buf == Masked(rx[..len], tracing).0;
    if parses(buf) {
      r := Message(buf, traceId);
    } else {
      r := Failure(Other);
    }
  }

  // ---- The stream ----

  /** The last status reported, unless the gate terminates. */
  function Saved(events: seq<GateEvent>): Option<Status> {
    if events == [] then None
    else
      var e := events[|events| - 1];
      if e.Report? then Some(e.status) else None
  }

  predicate Terminates(events: seq<GateEvent>) {
    exists i :: 0 <= i < |events| && events[i].Terminated?
  }

  /** What one call of `next` does to the receiver and returns, read off the bytes. */
  ghost predicate Nexts(rx: Option<seq<byte>>, parses: seq<byte> -> bool, tracing: bool, events: seq<GateEvent>,
                        r: Next, rx': Option<seq<byte>>)
  {
    match rx
    case None => r == Failed(Other) && rx' == None
    case Some(bytes) =>
      if Terminates(events) then r == Ended && rx' == None
      else
        match FirstFrame(bytes)
        case None => r.Failed? && (r.kind == InvalidData || r.kind == UnexpectedEof) && rx' == None
        case Some(frame) =>
          && rx'.Some? && bytes == frame + rx'.value
          && var (msg, traceId) := Masked(frame, tracing);
             r == if parses(msg) then Received(msg, Saved(events), traceId) else Failed(Other)
  }

  class BmpStream {
    var rx: Option<seq<byte>>
    const parses: seq<byte> -> bool

    constructor (rx: seq<byte>, parses: seq<byte> -> bool)
      ensures this.rx == Some(rx) && this.parses == parses
    {
      this.rx, this.parses := Some(rx), parses;
    }

    /** `events` is what the gate reports before the read is through. */
    method Next(tracing: bool, events: seq<GateEvent>) returns (r: Next)
      modifies this
      ensures Nexts(old(rx), parses, tracing, events, r, rx)
    {
      if rx.None? {
        return Failed(Other);
      }
      var taken := rx.value;
      rx := None;
      var saved := None;
      for i := 0 to |events|
        invariant rx == None && saved == Saved(events[..i])
        invariant forall j :: 0 <= j < i ==> events[j].Report?
      {
        match events[i]
        case Terminated => return Ended;
        case Report(status) =>
          saved := Some(status);
          assert events[..i + 1][i] == events[i];
      }
      assert events[..|events|] == events;
      var read, rest := BmpRead(taken, tracing, parses);
      match read
      case Failure(kind) =>
        if !IsFatal(kind) {
          rx := Some(rest);
        }
        r := Failed(kind);
      case Message(msg, traceId) =>
        rx := Some(rest);
        r := Received(msg, saved, traceId);
    }
  }

  // ---- Whole runs ----

  datatype Call = Call(tracing: bool, events: seq<GateEvent>, result: Next)

  ghost predicate Run(run: seq<Option<seq<byte>>>, calls: seq<Call>, parses: seq<byte> -> bool) {
    && |run| == |calls| + 1
    && forall k :: 0 <= k < |calls| ==>
         Nexts(run[k], parses, calls[k].tracing, calls[k].events, calls[k].result, run[k + 1])
  }

  function Concat(frames: seq<seq<byte>>): seq<byte> {
    if frames == [] then [] else Concat(frames[..|frames| - 1]) + frames[|frames| - 1]
  }

  /** A call that hands over the frame, with what rebuilds its first byte, or reports that the
      parser rejects it. */
  predicate Reports(c: Call, frame: seq<byte>, parses: seq<byte> -> bool) {
    && Frame(frame)
    && match c.result
       case Received(msg, _, traceId) =>
         |msg| == |frame| && Unmasked(msg, traceId) == frame && parses(msg) && (!c.tracing ==> msg == frame)
       case Failed(kind) => kind == Other && !parses(Masked(frame, c.tracing).0)
       case Ended => false
  }

  lemma OneFrame(rx: seq<byte>, parses: seq<byte> -> bool, c: Call, rx': seq<byte>) returns (frame: seq<byte>)
    requires Nexts(Some(rx), parses, c.tracing, c.events, c.result, Some(rx'))
    ensures rx == frame + rx' && Reports(c, frame, parses)
  {
    frame := FirstFrame(rx).value;
    MaskedRebuilds(frame, c.tracing);
  }

  /** While the receiver is held, what has been consumed is one whole frame per call, each handed
      over or reported once and in order. */
  lemma {:induction false} StaysAligned(run: seq<Option<seq<byte>>>, calls: seq<Call>, parses: seq<byte> -> bool, k: nat)
    returns (frames: seq<seq<byte>>)
    requires Run(run, calls, parses) && run[0].Some? && k < |run| && run[k].Some?
    ensures |frames| == k && run[0].value == Concat(frames) + run[k].value
    ensures forall i :: 0 <= i < k ==> Reports(calls[i], frames[i], parses)
  {
    frames := [];
    if k > 0 {
      assert Nexts(run[k - 1], parses, calls[k - 1].tracing, calls[k - 1].events, calls[k - 1].result, run[k]);
      var before := StaysAligned(run, calls, parses, k - 1);
      var frame := OneFrame(run[k - 1].value, parses, calls[k - 1], run[k].value);
      frames := before + [frame];
      assert frames[..k - 1] == before;
      assert Concat(before) + (frame + run[k].value) == (Concat(before) + frame) + run[k].value;
    }
  }

  /** Once the receiver is lost, to a bad length, the end of the stream or the end of the unit, no
      message is ever returned again. */
  lemma {:induction false} LostForGood(run: seq<Option<seq<byte>>>, calls: seq<Call>, parses: seq<byte> -> bool, k: nat, m: nat)
    requires Run(run, calls, parses) && k <= m < |run| && run[k].None?
    ensures run[m].None? && (m < |calls| ==> calls[m].result == Failed(Other))
    decreases m
  {
    assert m < |calls| ==> Nexts(run[m], parses, calls[m].tracing, calls[m].events, calls[m].result, run[m + 1]);
    if m > k {
      LostForGood(run, calls, parses, k, m - 1);
      assert Nexts(run[m - 1], parses, calls[m - 1].tracing, calls[m - 1].events, calls[m - 1].result, run[m]);
    }
  }

  /** A call loses the receiver if the gate terminates or no frame follows. */
  predicate Loses(rx: Option<seq<byte>>, c: Call) {
    rx.Some? && (Terminates(c.events) || FirstFrame(rx.value).None?)
  }

  /** A call that finds the receiver there loses it exactly on termination or a fatal error. */
  lemma LostWhen(run: seq<Option<seq<byte>>>, calls: seq<Call>, parses: seq<byte> -> bool, k: nat)
    requires Run(run, calls, parses) && k < |calls| && run[k].Some?
    ensures run[k + 1].None? <==> Loses(run[k], calls[k])
    ensures run[k + 1].None? <==> calls[k].result.Ended? || (calls[k].result.Failed? && IsFatal(calls[k].result.kind))
  {
    assert Nexts(run[k], parses, calls[k].tracing, calls[k].events, calls[k].result, run[k + 1]);
  }

  /** Over every run: the receiver is gone exactly if an earlier call lost it. */
  lemma {:induction false} LostExactly(run: seq<Option<seq<byte>>>, calls: seq<Call>, parses: seq<byte> -> bool, k: nat)
    requires Run(run, calls, parses) && run[0].Some? && k < |run|
    ensures run[k].None? <==> exists j :: 0 <= j < k && Loses(run[j], calls[j])
  {
    if k > 0 {
      LostExactly(run, calls, parses, k - 1);
      if run[k - 1].Some? {
        LostWhen(run, calls, parses, k - 1);
      } else {
        LostForGood(run, calls, parses, k - 1, k);
      }
    }
  }
}

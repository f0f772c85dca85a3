/**
 The resumable frame reader (native-audio-client/src/endpoint.rs): however the
 bytes arrive, it accepts, refuses and consumes exactly as one whole read does.
 */
module Incremental {
  import opened Bytes
  import opened Wire

  /** What one receive may meet: some bytes, nothing yet, a signal, or a fault. */
  datatype Turn = Deliver(most: nat) | Blocked | Signalled | Faulted

  datatype Received = Data(bytes: seq<byte>) | Eof | NotYet(interrupted: bool) | Broken

  /** How many more receives may bring bytes. */
  function Chances(script: seq<Turn>): nat {
    if script == [] then 0 else (if script[0].Deliver? then 1 else 0) + Chances(script[1..])
  }

  /** And how many will fault. */
  function Faults(script: seq<Turn>): nat {
    if script == [] then 0 else (if script[0].Faulted? then 1 else 0) + Faults(script[1..])
  }

  /** A connected socket: `stream` is all the peer ever sends, `at` what was taken, and
      `stalls` and `faults` count the receives that did not bring anything so far. */
  class Socket {
    const stream: seq<byte>
    ghost const plan: seq<Turn>
    var at: nat
    var script: seq<Turn>
    ghost var stalls: nat
    ghost var faults: nat

    /** No fault is made up, and a stall uses up a turn while there are any. */
    ghost predicate Valid()
      reads this
    {
      && at <= |stream| && faults + Faults(script) == Faults(plan)
      && (script != [] ==> stalls + |script| <= |plan|)
    }

    /** The next receive is interrupted. */
    predicate Signal()
      reads this
    {
      script != [] && script[0].Signalled?
    }

    /** How far into the stream the receives that are left are sure to get. */
    ghost function Reach(): nat
      reads this
    {
      if at + Chances(script) <= |stream| then at + Chances(script) else |stream|
    }

    constructor (stream: seq<byte>, script: seq<Turn>)
      ensures Valid() && at == 0 && this.stream == stream && this.script == plan == script
    {
      this.stream := stream;
      at := 0;
      this.script, plan := script, script;
      stalls, faults := 0, 0;
    }

    method Recv(size: nat) returns (r: Received)
      requires Valid() && size > 0
      modifies this
      ensures Valid() && Reach() >= old(Reach())
      ensures r.Data? ==> 0 < |r.bytes| <= size && at == old(at) + |r.bytes| && r.bytes == stream[old(at)..at]
      ensures !r.Data? ==> at == old(at)
      ensures r.Eof? ==> at == |stream|
      ensures stalls == (if r.NotYet? then old(stalls) + 1 else old(stalls))
      ensures faults == (if r.Broken? then old(faults) + 1 else old(faults))
      ensures r.NotYet? ==> r.interrupted == old(Signal())
    {
      var turn := if script == [] then Blocked else script[0];
      script := if script == [] then [] else script[1..];
      match turn
      case Deliver(most) =>
        var n := if most < 1 then 1 else most;
        n := if n > size then size else n;
        n := if n > |stream| - at then |stream| - at else n;
        if n == 0 {
          return Eof;
        }
        r := Data(stream[at..at + n]);
        at := at + n;
      case Blocked =>
        stalls := stalls + 1;
        return NotYet(false);
      case Signalled =>
        stalls := stalls + 1;
        return NotYet(true);
      case Faulted =>
        faults := faults + 1;
        return Broken;
    }
  }

  /** The caller's preallocated frame; `capacity` is the payload vector's extent. */
  class FrameBuffer {
    const capacity: nat
    var kind: nat
    var session: seq<byte>
    var sequence: nat
    var payload: seq<byte>

    constructor (capacity: nat)
      ensures this.capacity == capacity
    {
      this.capacity := capacity;
      kind, session, sequence, payload := 0, Zeros(16), 0, [];
    }
  }

  /** What the bytes of one frame received so far amount to. */
  datatype Verdict = NeedMore | Rejected | Complete(frame: Frame, length: nat)

  function Judge(s: seq<byte>, minor: nat, capacity: nat): (v: Verdict)
    ensures v.Complete? ==> HEADER <= v.length <= |s|
  {
    if |s| < HEADER then NeedMore
    else match PayloadLength(s[..HEADER], minor)
      case Err(_) => Rejected
      case Ok(n) =>
        if n > capacity then Rejected
        else if |s| < HEADER + n then NeedMore
        else Complete(FrameOf(s[..HEADER], s[HEADER..HEADER + n]), HEADER + n)
  }

  /** A verdict once reached is not changed by later bytes, and on the whole stream
      it is the verdict of a single read, given room for the announced payload. */
  lemma JudgeIsOneShot(taken: seq<byte>, rest: seq<byte>, minor: nat, capacity: nat)
    ensures Judge(taken, minor, capacity) != NeedMore ==>
              Judge(taken + rest, minor, capacity) == Judge(taken, minor, capacity)
    ensures var whole := ReadFrame(taken, minor);
            var fits := |taken| >= HEADER && PayloadLength(taken[..HEADER], minor).Ok? ==>
                          PayloadLength(taken[..HEADER], minor).value <= capacity;
            fits ==> Judge(taken, minor, capacity) ==
                       match whole case Read(f, n) => Complete(f, n) case Refused => Rejected case Ended => NeedMore
  {
    if |taken| >= HEADER {
      assert (taken + rest)[..HEADER] == taken[..HEADER];
      var announced := PayloadLength(taken[..HEADER], minor);
      if announced.Ok? && |taken| >= HEADER + announced.value {
        assert (taken + rest)[HEADER..HEADER + announced.value] == taken[HEADER..HEADER + announced.value];
        ReadComplete(taken, minor);
      }
    }
  }

  datatype Fault = UnexpectedEof | InvalidData | WouldBlock | Interrupted | TimedOut | Unhealthy | OtherFault
  datatype Outcome = Done | Pending | Failed(fault: Fault)

  class IncrementalFrame {
    const header: array<byte>
    var headerRead: nat
    var payloadRead: nat
    var payloadSize: Option<nat>

    constructor ()
      ensures fresh(this) && fresh(header)
      ensures header.Length == HEADER && headerRead == 0 && payloadRead == 0 && payloadSize == None
    {
      header := new byte[HEADER](_ => 0);
      headerRead, payloadRead, payloadSize := 0, 0, None;
    }

    ghost function Taken(frame: FrameBuffer): seq<byte>
      requires headerRead <= header.Length && (payloadSize.Some? ==> payloadRead <= |frame.payload|)
      reads this, header, frame
    {
      header[..headerRead] + if payloadSize.Some? then frame.payload[..payloadRead] else []
    }

    /** The reader holds exactly the bytes taken from the socket since `start`. */
    ghost predicate Holds(socket: Socket, frame: FrameBuffer, minor: nat, start: nat)
      reads this, header, frame, socket
    {
      && socket.Valid() && start <= socket.at
      && header.Length == HEADER && headerRead <= HEADER
      && (payloadSize.None? ==> payloadRead == 0)
      && (payloadSize.Some? ==>
            && headerRead == HEADER && PayloadLength(header[..], minor) == Ok(payloadSize.value)
            && |frame.payload| == payloadSize.value <= frame.capacity && payloadRead <= payloadSize.value)
      && Taken(frame) == socket.stream[start..socket.at]
    }

    ghost predicate Filled(frame: FrameBuffer, v: Verdict)
      reads frame
    {
      v.Complete? && RawFrame.Frame(frame.kind, frame.session, frame.sequence, frame.payload) == v.frame
    }

    /** After a reset the reader owns the next frame, whose bytes start where the socket stands. */
    method Reset(ghost socket: Socket, ghost frame: FrameBuffer, ghost minor: nat)
      requires socket.Valid() && header.Length == HEADER
      modifies this
      ensures Holds(socket, frame, minor, socket.at)
    {
      headerRead, payloadRead, payloadSize := 0, 0, None;
    }

    method PreparePayload(minor: nat, frame: FrameBuffer, socket: Socket, ghost start: nat) returns (ok: bool)
      requires Holds(socket, frame, minor, start)
      modifies this`payloadSize, frame`payload
      ensures Holds(socket, frame, minor, start)
      ensures !ok <==> Judge(socket.stream[start..socket.at], minor, frame.capacity).Rejected?
      ensures ok && headerRead == HEADER ==> payloadSize.Some?
      ensures old(payloadSize).Some? ==> ok && frame.payload == old(frame.payload)
      ensures Unread() <= old(Unread())
    {
      if headerRead == HEADER && payloadSize.None? {
        assert header[..headerRead] == header[..];
        var size := PayloadLength(header[..], minor);
        if size.Err? {
          return false;
        }
        if size.value > frame.capacity {
          return false;
        }
        frame.payload := Zeros(size.value);
        payloadSize := Some(size.value);
      }
      assert headerRead == HEADER ==> socket.stream[start..socket.at][..HEADER] == header[..];
      return true;
    }

    predicate IsComplete()
      reads this
    {
      payloadSize.Some? && payloadRead == payloadSize.value
    }

    method Finish(socket: Socket, minor: nat, frame: FrameBuffer, ghost start: nat)
      requires Holds(socket, frame, minor, start) && IsComplete()
      modifies frame
      ensures Holds(socket, frame, minor, start)
      ensures Filled(frame, Judge(socket.stream[start..socket.at], minor, frame.capacity))
      ensures Judge(socket.stream[start..socket.at], minor, frame.capacity).length == socket.at - start
    {
      frame.kind := Get(header[8..10]);
      frame.session := header[16..32];
      frame.sequence := Get(header[40..48]);
      var s := socket.stream[start..socket.at];
      assert s == header[..] + frame.payload;
      assert s[..HEADER] == header[..] && s[HEADER..HEADER + payloadSize.value] == frame.payload;
      assert header[..][8..10] == header[8..10] && header[..][16..32] == header[16..32]
          && header[..][40..48] == header[40..48];
    }

    /** Receive into whichever part is unfinished; the shared step of both readers. */
    method Take(socket: Socket, minor: nat, frame: FrameBuffer, ghost start: nat) returns (r: Received)
      requires Holds(socket, frame, minor, start) && !IsComplete()
      requires headerRead == HEADER ==> payloadSize.Some?
      modifies this, header, frame`payload, socket
      ensures Holds(socket, frame, minor, start)
      ensures r.Data? ==> socket.at > old(socket.at)
      ensures !r.Data? ==> socket.at == old(socket.at) && frame.payload == old(frame.payload)
      ensures r.Eof? ==> socket.at == |socket.stream|
      ensures socket.Reach() >= old(socket.Reach())
      ensures socket.stalls == (if r.NotYet? then old(socket.stalls) + 1 else old(socket.stalls))
      ensures socket.faults == (if r.Broken? then old(socket.faults) + 1 else old(socket.faults))
      ensures r.NotYet? ==> r.interrupted == old(socket.Signal())
      ensures |frame.payload| == old(|frame.payload|) && payloadSize == old(payloadSize)
      ensures Judge(socket.stream[start..old(socket.at)], minor, frame.capacity) == NeedMore
      ensures Unread() <= old(Unread()) && (r.Data? ==> Unread() < old(Unread()))
    {
      if headerRead < HEADER {
        r := TakeHeader(socket, minor, frame, start);
      } else {
        assert socket.stream[start..socket.at][..HEADER] == header[..];
        r := TakePayload(socket, minor, frame, start);
      }
    }

    method TakeHeader(socket: Socket, minor: nat, frame: FrameBuffer, ghost start: nat) returns (r: Received)
      requires Holds(socket, frame, minor, start) && headerRead < HEADER
      modifies this`headerRead, header, socket
      ensures Holds(socket, frame, minor, start)
      ensures r.Data? ==> socket.at > old(socket.at) && headerRead > old(headerRead)
      ensures !r.Data? ==> socket.at == old(socket.at) && headerRead == old(headerRead)
      ensures r.Eof? ==> socket.at == |socket.stream|
      ensures socket.Reach() >= old(socket.Reach())
      ensures socket.stalls == (if r.NotYet? then old(socket.stalls) + 1 else old(socket.stalls))
      ensures socket.faults == (if r.Broken? then old(socket.faults) + 1 else old(socket.faults))
      ensures r.NotYet? ==> r.interrupted == old(socket.Signal())
    {
      ghost var before := socket.stream[start..socket.at];
      r := socket.Recv(HEADER - headerRead);
      if r.Data? {
        CopyInto(header, headerRead, r.bytes);
        headerRead := headerRead + |r.bytes|;
        assert header[..headerRead] == before + r.bytes;
        assert socket.stream[start..socket.at] == before + r.bytes;
      }
    }

    method TakePayload(socket: Socket, minor: nat, frame: FrameBuffer, ghost start: nat) returns (r: Received)
      requires Holds(socket, frame, minor, start) && payloadSize.Some? && payloadRead < payloadSize.value
      modifies this`payloadRead, frame`payload, socket
      ensures Holds(socket, frame, minor, start)
      ensures r.Data? ==> socket.at > old(socket.at) && payloadRead > old(payloadRead)
      ensures !r.Data? ==>
                socket.at == old(socket.at) && payloadRead == old(payloadRead) && frame.payload == old(frame.payload)
      ensures |frame.payload| == old(|frame.payload|)
      ensures r.Eof? ==> socket.at == |socket.stream|
      ensures socket.Reach() >= old(socket.Reach())
      ensures socket.stalls == (if r.NotYet? then old(socket.stalls) + 1 else old(socket.stalls))
      ensures socket.faults == (if r.Broken? then old(socket.faults) + 1 else old(socket.faults))
      ensures r.NotYet? ==> r.interrupted == old(socket.Signal())
    {
      ghost var before := socket.stream[start..socket.at];
      r := socket.Recv(payloadSize.value - payloadRead);
      if r.Data? {
        frame.payload := frame.payload[..payloadRead] + r.bytes + frame.payload[payloadRead + |r.bytes|..];
        payloadRead := payloadRead + |r.bytes|;
        assert frame.payload[..payloadRead] == old(frame.payload[..payloadRead]) + r.bytes;
        assert Taken(frame) == before + r.bytes;
        assert socket.stream[start..socket.at] == before + r.bytes;
      }
    }

    /** How much this frame could still ask the socket for; it bounds the loop. */
    ghost function Unread(): int
      reads this
    {
      HEADER - headerRead + (if payloadSize.Some? then payloadSize.value - payloadRead else STATE_LIMIT)
    }

    /** Admit a finished header, then say whether the frame is done, refused or unfinished. */
    method Advance(socket: Socket, minor: nat, frame: FrameBuffer, ghost start: nat) returns (r: Outcome)
      requires Holds(socket, frame, minor, start)
      modifies this`payloadSize, frame
      ensures Holds(socket, frame, minor, start)
      ensures Answers(r, socket, minor, frame, start)
      ensures r.Done? || r.Pending? || r == Failed(InvalidData)
      ensures r.Pending? ==> !IsComplete() && (headerRead == HEADER ==> payloadSize.Some?)
      ensures Unread() <= old(Unread())
    {
      var ok := PreparePayload(minor, frame, socket, start);
      if !ok {
        return Failed(InvalidData);
      }
      if IsComplete() {
        Finish(socket, minor, frame, start);
        return Done;
      }
      Unfinished(socket, minor, frame, start);
      return Pending;
    }

    /** `read_once`: at most one receive. */
    method ReadOnce(socket: Socket, minor: nat, frame: FrameBuffer, ghost start: nat) returns (r: Outcome)
      requires Holds(socket, frame, minor, start)
      modifies this, header, frame, socket
      ensures Holds(socket, frame, minor, start)
      ensures Answers(r, socket, minor, frame, start)
      ensures r.Pending? ==> socket.at > old(socket.at)
      ensures socket.stalls
              == old(socket.stalls) + (if r == Failed(WouldBlock) || r == Failed(Interrupted) then 1 else 0)
      ensures socket.faults == old(socket.faults) + (if r == Failed(OtherFault) then 1 else 0)
      ensures (r == Failed(Interrupted) ==> old(socket.Signal())) && (r == Failed(WouldBlock) ==> !old(socket.Signal()))
      ensures socket.Reach() >= old(socket.Reach())
    {
      if headerRead == HEADER {
        r := Advance(socket, minor, frame, start);
        if !r.Pending? {
          return;
        }
      }
      var got := Take(socket, minor, frame, start);
      match got
      case Eof => return Failed(UnexpectedEof);
      case NotYet(interrupted) => return Failed(if interrupted then Interrupted else WouldBlock);
      case Broken => return Failed(OtherFault);
      case Data(_) => r := Advance(socket, minor, frame, start);
    }

    /** `read_available`: receive until the frame is done or the socket has no more. The first
        stall leaves it pending, the first fault fails, and nothing else does either. */
    method ReadAvailable(socket: Socket, minor: nat, frame: FrameBuffer, ghost start: nat) returns (r: Outcome)
      requires Holds(socket, frame, minor, start)
      modifies this, header, frame, socket
      ensures Holds(socket, frame, minor, start)
      ensures Answers(r, socket, minor, frame, start)
      ensures socket.stalls == old(socket.stalls) + (if r.Pending? then 1 else 0)
      ensures socket.faults == old(socket.faults) + (if r == Failed(OtherFault) then 1 else 0)
      ensures r.Failed? ==> r.fault.OtherFault? || r.fault.InvalidData? || r.fault.UnexpectedEof?
      ensures socket.Reach() >= old(socket.Reach())
    {
      while true
        invariant Holds(socket, frame, minor, start)
        invariant socket.stalls == old(socket.stalls) && socket.faults == old(socket.faults)
        invariant socket.Reach() >= old(socket.Reach())
        decreases Unread()
      {
        r := Advance(socket, minor, frame, start);
        if !r.Pending? {
          return;
        }
        var got := Take(socket, minor, frame, start);
        match got
        case Eof => return Failed(UnexpectedEof);
        case NotYet(_) => return Pending;
        case Broken => return Failed(OtherFault);
        case Data(_) =>
      }
    }

    lemma Unfinished(socket: Socket, minor: nat, frame: FrameBuffer, start: nat)
      requires Holds(socket, frame, minor, start) && !IsComplete()
      requires headerRead == HEADER ==> payloadSize.Some?
      ensures Judge(socket.stream[start..socket.at], minor, frame.capacity) == NeedMore
    {
      if headerRead == HEADER {
        assert socket.stream[start..socket.at][..HEADER] == header[..];
      }
    }

    /** What a reader's answer means about the stream as a whole. */
    ghost predicate Answers(r: Outcome, socket: Socket, minor: nat, frame: FrameBuffer, start: nat)
      requires socket.Valid() && start <= socket.at
      reads socket, frame
    {
      var taken := Judge(socket.stream[start..socket.at], minor, frame.capacity);
      match r
      case Done => Filled(frame, taken) && taken.length == socket.at - start
      case Pending => taken == NeedMore
      case Failed(InvalidData) => taken == Rejected
      case Failed(UnexpectedEof) => taken == NeedMore && socket.at == |socket.stream|
      case Failed(fault) => taken == NeedMore && !fault.TimedOut? && !fault.Unhealthy?
    }
  }

  /** Every answer of either reader agrees with reading the whole stream at once:
      the same frame and not a byte beyond it, the same refusal, the same early end. */
  lemma AnswersAreOneShot(reader: IncrementalFrame, r: Outcome, socket: Socket, minor: nat, frame: FrameBuffer,
                          start: nat)
    requires socket.Valid() && start <= socket.at && reader.Answers(r, socket, minor, frame, start)
    requires var s := socket.stream[start..];
             |s| >= HEADER && PayloadLength(s[..HEADER], minor).Ok? ==>
               PayloadLength(s[..HEADER], minor).value <= frame.capacity
    ensures var whole := ReadFrame(socket.stream[start..], minor);
            && (r.Done? ==> whole.Read? && whole.used == socket.at - start
                            && RawFrame.Frame(frame.kind, frame.session, frame.sequence, frame.payload) == whole.frame)
            && (r == Failed(InvalidData) ==> whole == Refused)
            && (r == Failed(UnexpectedEof) ==> whole == Ended)
  {
    var taken, rest := socket.stream[start..socket.at], socket.stream[socket.at..];
    assert taken + rest == socket.stream[start..];
    JudgeIsOneShot(taken, rest, minor, frame.capacity);
    JudgeIsOneShot(taken + rest, [], minor, frame.capacity);
    if r == Failed(UnexpectedEof) {
      assert taken == socket.stream[start..];
    }
  }

  /** How long the frame that begins `s` is, as far as that is said there; a header that is
      refused ends it. */
  function Needed(s: seq<byte>, minor: nat): (n: nat)
    ensures n >= HEADER
  {
    if |s| >= HEADER && PayloadLength(s[..HEADER], minor).Ok?
    then HEADER + PayloadLength(s[..HEADER], minor).value else HEADER
  }

  /** The frame or the refusal is on its way, and there is room for it. */
  ghost predicate Coming(s: seq<byte>, minor: nat, capacity: nat) {
    !ReadFrame(s, minor).Ended? && Needed(s, minor) <= HEADER + capacity
  }

  /** The receives that are left are sure to get to the end of it, and none of them faults. */
  ghost predicate Supplied(socket: Socket, minor: nat, capacity: nat, start: nat)
    requires socket.Valid() && start <= socket.at
    reads socket
  {
    var s := socket.stream[start..];
    Coming(s, minor, capacity) && Faults(socket.script) == 0 && start + Needed(s, minor) <= socket.Reach()
  }

  /** Short of so many bytes a frame is unfinished, and the stream has them all. */
  lemma NeededIsNeeded(s: seq<byte>, taken: nat, minor: nat, capacity: nat)
    requires Coming(s, minor, capacity) && taken <= |s|
    ensures Needed(s, minor) <= |s|
    ensures Judge(s[..taken], minor, capacity) == NeedMore <==> taken < Needed(s, minor)
  {
    if taken >= HEADER {
      assert s[..taken][..HEADER] == s[..HEADER];
    }
  }

  /** The time of the `n`th reading from now, each later than the last by the next of `steps`,
      and by one once those run out. */
  function Later(now: nat, steps: seq<nat>, n: nat): (t: nat)
    ensures t >= now
    decreases n
  {
    if n == 0 then now
    else if steps == [] then Later(now + 1, [], n - 1) else Later(now + steps[0], steps[1..], n - 1)
  }

  lemma {:induction false} LaterStill(now: nat, steps: seq<nat>, m: nat, n: nat)
    requires m <= n
    ensures Later(now, steps, m) <= Later(now, steps, n)
    decreases n
  {
    if m > 0 {
      if steps == [] {
        LaterStill(now + 1, [], m - 1, n - 1);
      } else {
        LaterStill(now + steps[0], steps[1..], m - 1, n - 1);
      }
    }
  }

  lemma Reading(now: nat, steps: seq<nat>)
    ensures Later(now, steps, 1) == if steps == [] then now + 1 else now + steps[0]
    ensures Later(now, steps, 2) == Later(Later(now, steps, 1), if steps == [] then [] else steps[1..], 1)
  {
    assert steps != [] ==> Later(now + steps[0], steps[1..], 0) == now + steps[0];
    assert Later(now + 1, [], 0) == now + 1;
  }

  lemma OneLess(now: nat, steps: seq<nat>, n: nat)
    ensures Later(Later(now, steps, 1), if steps == [] then [] else steps[1..], n) == Later(now, steps, n + 1)
  {
    Reading(now, steps);
  }

  /** A monotonic clock: each reading is later than the last by the next of `steps`,
      and strictly later once those run out. */
  class Clock {
    var now: nat
    var steps: seq<nat>

    constructor (now: nat, steps: seq<nat>)
    {
      this.now, this.steps := now, steps;
    }

    method Read() returns (t: nat)
      modifies this
      ensures t == now >= old(now)
      ensures |steps| < old(|steps|) || (|steps| == old(|steps|) && now > old(now))
      ensures now == Later(old(now), old(steps), 1) && steps == if old(steps) == [] then [] else old(steps)[1..]
    {
      Reading(now, steps);
      if steps == [] {
        now := now + 1;
      } else {
        now := now + steps[0];
        steps := steps[1..];
      }
      t := now;
    }
  }

  /** The deadline test that stands before every success. */
  method Conclude(end: nat, clock: Clock) returns (r: Outcome)
    modifies clock
    ensures r == (if clock.now <= end then Done else Failed(TimedOut))
    ensures clock.now == Later(old(clock.now), old(clock.steps), 1)
  {
    var now := clock.Read();
    return if now > end then Failed(TimedOut) else Done;
  }

  /** Both readers in turn; a zero read timeout, when no time is left, is refused by the socket. */
  method ReadBoth(socket: Socket, mayWait: bool, minor: nat, reader: IncrementalFrame,
                  frame: FrameBuffer, ghost start: nat) returns (r: Outcome)
    requires reader.Holds(socket, frame, minor, start)
    modifies socket, reader, reader.header, frame
    ensures reader.Holds(socket, frame, minor, start)
    ensures reader.Answers(r, socket, minor, frame, start)
    ensures r.Pending? ==> mayWait && socket.stalls > old(socket.stalls)
    ensures Reported(r, socket.faults - old(socket.faults), !mayWait)
    ensures socket.Reach() >= old(socket.Reach())
  {
    r := reader.ReadAvailable(socket, minor, frame, start);
    if !r.Pending? {
      return;
    }
    if !mayWait {
      return Failed(OtherFault);
    }
    r := reader.ReadOnce(socket, minor, frame, start);
    if r.Failed? && (r.fault.WouldBlock? || r.fault.TimedOut? || r.fault.Interrupted?) {
      return Pending;
    }
  }

  /** A fault that was met is reported, and no other is, but that there was no time to wait;
      stalls are never reported. */
  ghost predicate Reported(r: Outcome, faults: int, late: bool) {
    && (faults != 0 ==> r == Failed(OtherFault)) && (r == Failed(OtherFault) ==> faults > 0 || late)
    && (r.Failed? ==> r.fault.UnexpectedEof? || r.fault.InvalidData? || r.fault.OtherFault?)
  }

  /** One turn of the loop in `receive_incremental_until_while`; Pending means go round again. */
  method Attempt(socket: Socket, end: nat, clock: Clock, minor: nat, reader: IncrementalFrame,
                 frame: FrameBuffer, ghost start: nat) returns (r: Outcome)
    requires reader.Holds(socket, frame, minor, start)
    modifies socket, clock, reader, reader.header, frame
    ensures reader.Holds(socket, frame, minor, start)
    ensures r != Failed(TimedOut) ==> reader.Answers(r, socket, minor, frame, start)
    ensures InTurn(r, end, old(clock.now), old(clock.steps), clock.now, clock.steps)
    ensures r.Pending? ==> socket.stalls > old(socket.stalls)
    ensures r != Failed(TimedOut) ==> Reported(r, socket.faults - old(socket.faults), clock.now == end)
    ensures socket.Reach() >= old(socket.Reach())
  {
    var now := clock.Read();
    if now > end {
      Reading(old(clock.now), old(clock.steps));
      return Failed(TimedOut);
    }
    r := ReadBoth(socket, now < end, minor, reader, frame, start);
    if r.Done? {
      Reading(old(clock.now), old(clock.steps));
      r := Conclude(end, clock);
    }
  }

  /** How an attempt stands to the clock. */
  ghost predicate InTurn(r: Outcome, end: nat, was: nat, left: seq<nat>, now: nat, steps: seq<nat>) {
    && (r.Done? ==> now <= end) && (r == Failed(TimedOut) ==> now > end && now <= Later(was, left, 2))
    && (r.Pending? ==>
          && now <= end && (|steps| < |left| || (|steps| == |left| && now > was))
          && now == Later(was, left, 1) && steps == (if left == [] then [] else left[1..]))
    && (r.Failed? && !r.fault.TimedOut? ==> now == Later(was, left, 1))
  }

  /** So many more readings, and two, come before the end. */
  ghost predicate TimeFor(n: nat, now: nat, steps: seq<nat>, end: nat) {
    Later(now, steps, n + 2) < end
  }

  /** The first `n` answers, as far as there are any, were good. */
  predicate WellFor(healthy: seq<bool>, n: nat) {
    forall i :: 0 <= i < n && i < |healthy| ==> healthy[i]
  }

  lemma WellOn(healthy: seq<bool>, n: nat)
    requires WellFor(healthy, n)
    ensures WellFor(healthy, n + 1) <==> (n < |healthy| ==> healthy[n])
  {
  }

  lemma InTime(now: nat, steps: seq<nat>, n: nat, end: nat)
    requires TimeFor(n, now, steps, end)
    ensures Later(now, steps, 1) < end && Later(now, steps, 2) < end
  {
    LaterStill(now, steps, 1, n + 2);
    LaterStill(now, steps, 2, n + 2);
  }

  /** The time for what is still to be waited for. */
  lemma StillInTime(left: nat, now: nat, steps: seq<nat>, end: nat)
    requires 0 < left && TimeFor(left, now, steps, end)
    ensures TimeFor(left - 1, Later(now, steps, 1), if steps == [] then [] else steps[1..], end)
  {
    OneLess(now, steps, left + 1);
  }

  /** A frame that is unfinished has turns left to be received. */
  lemma Unsettled(reader: IncrementalFrame, socket: Socket, minor: nat, frame: FrameBuffer, start: nat)
    requires socket.Valid() && start <= socket.at && reader.Answers(Pending, socket, minor, frame, start)
    requires Coming(socket.stream[start..], minor, frame.capacity)
    requires start + Needed(socket.stream[start..], minor) <= socket.Reach()
    ensures socket.script != []
  {
    var s := socket.stream[start..];
    assert s[..socket.at - start] == socket.stream[start..socket.at];
    NeededIsNeeded(s, socket.at - start, minor, frame.capacity);
  }

  /** And a final answer to one that was on its way is that of a single read. */
  lemma Settled(reader: IncrementalFrame, r: Outcome, socket: Socket, minor: nat, frame: FrameBuffer, start: nat)
    requires socket.Valid() && start <= socket.at && reader.Answers(r, socket, minor, frame, start)
    requires Coming(socket.stream[start..], minor, frame.capacity)
    requires r.Done? || r == Failed(InvalidData) || r == Failed(UnexpectedEof)
    ensures r == if ReadFrame(socket.stream[start..], minor).Read? then Done else Failed(InvalidData)
  {
    var s := socket.stream[start..];
    assert s[..socket.at - start] == socket.stream[start..socket.at];
    NeededIsNeeded(s, socket.at - start, minor, frame.capacity);
    AnswersAreOneShot(reader, r, socket, minor, frame, start);
  }

  /** The frame is on its way, and there is time for all the stalls there may yet be. */
  ghost predicate OnTime(socket: Socket, clock: Clock, minor: nat, capacity: nat, start: nat, end: nat, left: nat)
    requires socket.Valid() && start <= socket.at
    reads socket, clock
  {
    && Supplied(socket, minor, capacity, start) && TimeFor(left, clock.now, clock.steps, end)
    && |socket.plan| <= socket.stalls + left
  }

  /** An attempt among up to `left` more. */
  method AttemptInTime(socket: Socket, end: nat, clock: Clock, minor: nat, reader: IncrementalFrame,
                       frame: FrameBuffer, ghost start: nat, ghost left: nat)
    returns (r: Outcome, ghost rest: nat)
    requires reader.Holds(socket, frame, minor, start)
    modifies socket, clock, reader, reader.header, frame
    ensures reader.Holds(socket, frame, minor, start)
    ensures r != Failed(TimedOut) ==> reader.Answers(r, socket, minor, frame, start)
    ensures InTurn(r, end, old(clock.now), old(clock.steps), clock.now, clock.steps)
    ensures r != Failed(TimedOut) ==> Reported(r, socket.faults - old(socket.faults), clock.now == end)
    ensures old(OnTime(socket, clock, minor, frame.capacity, start, end, left)) ==>
              if r.Pending? then left == rest + 1 && OnTime(socket, clock, minor, frame.capacity, start, end, rest)
              else r == if ReadFrame(socket.stream[start..], minor).Read? then Done else Failed(InvalidData)
  {
    ghost var due, now, steps :=
      OnTime(socket, clock, minor, frame.capacity, start, end, left), clock.now, clock.steps;
    rest := if left > 0 then left - 1 else 0;
    if due {
      InTime(now, steps, left, end);
    }
    r := Attempt(socket, end, clock, minor, reader, frame, start);
    if due {
      if r.Pending? {
        Unsettled(reader, socket, minor, frame, start);
        StillInTime(left, now, steps, end);
      } else {
        Settled(reader, r, socket, minor, frame, start);
      }
    }
  }

  /** `receive_incremental_until_while`: finish one frame under an absolute deadline,
      looking at `healthy` before each attempt, `asked` times in all. Stalls are waited out:
      with the bytes on their way, time and health, it answers as one read of the stream. */
  method ReceiveUntil(socket: Socket, end: nat, clock: Clock, minor: nat, reader: IncrementalFrame,
                      frame: FrameBuffer, healthy: seq<bool>, ghost start: nat)
    returns (r: Outcome, ghost asked: nat)
    requires reader.Holds(socket, frame, minor, start)
    modifies socket, clock, reader, reader.header, frame
    ensures reader.Holds(socket, frame, minor, start)
    ensures !r.Pending?
    ensures r != Failed(TimedOut) && r != Failed(Unhealthy) ==>
              && reader.Answers(r, socket, minor, frame, start)
              && Reported(r, socket.faults - old(socket.faults), clock.now == end)
    ensures r.Done? ==> clock.now <= end
    ensures r == Failed(TimedOut) ==> clock.now > end
    ensures asked > 0 && WellFor(healthy, asked - 1)
    ensures r == Failed(Unhealthy) <==> !WellFor(healthy, asked)
    ensures old(OnTime(socket, clock, minor, frame.capacity, start, end, |socket.plan|))
            && WellFor(healthy, |socket.plan| + 1) ==>
              r == if ReadFrame(socket.stream[start..], minor).Read? then Done else Failed(InvalidData)
  {
    var looks := 0;
    ghost var left: nat := |socket.plan|;
    ghost var due := OnTime(socket, clock, minor, frame.capacity, start, end, left);
    while true
      invariant reader.Holds(socket, frame, minor, start) && socket.faults == old(socket.faults)
      invariant WellFor(healthy, looks)
      invariant due ==> OnTime(socket, clock, minor, frame.capacity, start, end, left) && looks + left == |socket.plan|
      decreases |clock.steps|, if clock.now <= end then end + 1 - clock.now else 0
    {
      WellOn(healthy, looks);
      asked := looks + 1;
      if looks < |healthy| && !healthy[looks] {
        return Failed(Unhealthy), asked;
      }
      r, left := AttemptInTime(socket, end, clock, minor, reader, frame, start, left);
      if !r.Pending? {
        return;
      }
      looks := looks + 1;
    }
  }
}

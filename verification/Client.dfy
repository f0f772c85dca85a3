/**
 The one-slot request state of the native client (native-audio-client/src/lib.rs,
 `ClientState`), against a peer that may send anything at all.
 */
module Client {
  import opened Bytes
  import opened Floats
  import opened Wire

  const U64 := 0x1_0000_0000_0000_0000

  datatype Slot = Writable | Outstanding(sequence: nat, frames: nat) | Failed | Closed

  function Consecutive(first: nat, count: nat): seq<nat> {
    seq(count, i requires 0 <= i < count => first + i)
  }

  function RequestPayload(frames: nat, gain: nat, silence: nat): (p: seq<byte>)
    ensures |p| == 32
  {
    Put(frames, 4) + Put(INPUT, 4) + Put(OUTPUT, 4) + Put(STRIDE, 4) + Put(gain, 8) + Put(silence, 4) + Zeros(4)
  }

  /** What the peer reads from a request: its extent, the fixed planes, the gain and silence flags. */
  lemma RequestReadsBack(frames: nat, gain: nat, silence: nat)
    requires frames <= CAP && Unit64(gain) && silence <= 3
    ensures var p := RequestPayload(frames, gain, silence);
            && Get(p[0..4]) == frames && Get(p[4..8]) == INPUT && Get(p[8..12]) == OUTPUT
            && Get(p[12..16]) == STRIDE && Get(p[16..24]) == gain && Get(p[24..28]) == silence
  {
    Widths();
    GetPut(frames, 4);
    GetPut(INPUT, 4);
    GetPut(OUTPUT, 4);
    GetPut(STRIDE, 4);
    GetPut(gain, 8);
    GetPut(silence, 4);
    Parts(Put(frames, 4), Put(INPUT, 4), Put(OUTPUT, 4), Put(STRIDE, 4), Put(gain, 8), Put(silence, 4), Zeros(4));
  }

  lemma Parts(a: seq<byte>, b: seq<byte>, c: seq<byte>, d: seq<byte>, e: seq<byte>, f: seq<byte>, g: seq<byte>)
    requires |a| == |b| == |c| == |d| == |f| == |g| == 4 && |e| == 8
    ensures var p := a + b + c + d + e + f + g;
            p[0..4] == a && p[4..8] == b && p[8..12] == c && p[12..16] == d && p[16..24] == e && p[24..28] == f
  {
  }

  class ClientState {
    const session: seq<byte>
    var next: nat
    var slot: Slot
    /** The history of this slot: sequences sent as requests, and those acknowledged. */
    ghost const first: nat
    ghost var issued: seq<nat>
    ghost var acknowledged: seq<nat>

    ghost predicate Valid()
      reads this
    {
      && |session| == 16 && next < U64
      && issued == Consecutive(first, |issued|)
      && acknowledged == Consecutive(first, |acknowledged|)
      && next == first + |acknowledged|
      && |acknowledged| <= |issued| <= |acknowledged| + 1
      && (slot.Writable? || slot.Closed? ==> |issued| == |acknowledged|)
      && (slot.Outstanding? ==> |issued| == |acknowledged| + 1 && slot.sequence == next < U64 - 1)
    }

    constructor (session: seq<byte>, next: nat)
      requires |session| == 16 && next < U64
      ensures Valid() && slot == Writable && this.next == next && first == next && this.session == session
    {
      this.session, this.next, this.slot := session, next, Writable;
      first, issued, acknowledged := next, [], [];
    }

    method Process(frames: nat, gain: nat, silence: nat) returns (r: Result<Frame>)
      requires Valid()
      modifies this
      ensures Valid() && SentExactlyWhen(r, old(slot), old(next), 64, frames, gain, silence)
      ensures Sent(r, old(issued), old(slot))
      ensures next == old(next) && acknowledged == old(acknowledged)
    {
      r := ProcessLimited(frames, gain, silence, 64);
    }

    method ProcessSustained(frames: nat, gain: nat, silence: nat) returns (r: Result<Frame>)
      requires Valid()
      modifies this
      ensures Valid() && SentExactlyWhen(r, old(slot), old(next), U64 - 2, frames, gain, silence)
      ensures Sent(r, old(issued), old(slot))
      ensures next == old(next) && acknowledged == old(acknowledged)
    {
      r := ProcessLimited(frames, gain, silence, U64 - 2);
    }

    ghost predicate SentExactlyWhen(r: Result<Frame>, before: Slot, at: nat, limit: nat,
                                    frames: nat, gain: nat, silence: nat)
      reads this
    {
      && (r.Ok? <==> before.Writable? && at <= limit && 1 <= frames <= CAP && silence <= 3 && Unit64(gain))
      && (r.Ok? ==>
            && slot == Outstanding(at, frames)
            && r.value == RawFrame.Frame(PROCESS, session, at, RequestPayload(frames, gain, silence)))
    }

    ghost predicate Sent(r: Result<Frame>, issuedBefore: seq<nat>, before: Slot)
      reads this
    {
      if r.Ok? then issued == issuedBefore + [r.value.sequence]
      else issued == issuedBefore && slot == before
    }

    method ProcessLimited(frames: nat, gain: nat, silence: nat, limit: nat) returns (r: Result<Frame>)
      requires Valid() && limit < U64 - 1
      modifies this
      ensures Valid() && SentExactlyWhen(r, old(slot), old(next), limit, frames, gain, silence)
      ensures Sent(r, old(issued), old(slot))
      ensures next == old(next) && acknowledged == old(acknowledged)
    {
      if !(slot.Writable? && next <= limit && 1 <= frames <= CAP && silence <= 3 && Unit64(gain)) {
        return Err("request ownership/extent");
      }
      slot := Outstanding(next, frames);
      issued := issued + [next];
      return Ok(RawFrame.Frame(PROCESS, session, next, RequestPayload(frames, gain, silence)));
    }

    /** Acknowledge the one outstanding request; anything else spends the slot. */
    method DoneAt(f: Frame, output: nat) returns (r: Result<nat>)
      requires Valid()
      modifies this
      ensures Valid()
      ensures r.Ok? <==> old(slot).Outstanding? && f.kind == DONE && f.session == session
                         && f.sequence == old(next) && |f.payload| == 16
                         && Get(f.payload[..4]) == old(slot).frames && Get(f.payload[4..8]) == output
      ensures r.Ok? ==> r.value == Get(f.payload[8..16]) && slot == Writable
                        && acknowledged == old(acknowledged) + [f.sequence] && next == old(next) + 1
      ensures r.Err? ==> slot == Failed && acknowledged == old(acknowledged) && next == old(next)
      ensures issued == old(issued)
    {
      var ok := match slot
        case Outstanding(sequence, frames) =>
          f.kind == DONE && f.session == session && f.sequence == sequence && |f.payload| == 16
          && Get(f.payload[..4]) == frames && Get(f.payload[4..8]) == output
        case _ => false;
      if !ok {
        slot := Failed;
        return Err("stale/wrong Done; slot unusable");
      }
      slot := Writable;
      acknowledged := acknowledged + [next];
      next := next + 1;
      return Ok(Get(f.payload[8..16]));
    }

    method Fail()
      requires Valid()
      modifies this`slot
      ensures Valid() && slot == Failed
    {
      slot := Failed;
    }

    method Close() returns (r: Result<Frame>)
      requires Valid()
      modifies this`slot
      ensures Valid()
      ensures r.Ok? <==> old(slot).Writable?
      ensures r.Ok? ==> slot == Closed && issued == acknowledged
                        && r.value == RawFrame.Frame(CLOSE, session, next, [])
      ensures r.Err? ==> slot == old(slot)
    {
      if !slot.Writable? {
        return Err("close while outstanding/failed");
      }
      slot := Closed;
      return Ok(RawFrame.Frame(CLOSE, session, next, []));
    }

    predicate ClosedBy(f: Frame)
      reads this
    {
      slot.Closed? && f.kind == CLOSED && f.session == session && f.sequence == next && f.payload == []
    }
  }

  /** One call of a client of the slot, with the peer's frame where one is looked at. */
  datatype Call =
    | CallProcess(frames: nat, gain: nat, silence: nat)
    | CallSustained(frames: nat, gain: nat, silence: nat)
    | CallDone(reply: Frame, output: nat)
    | CallFail
    | CallClose
    | CallClosed(reply: Frame)

  /** The answer to a close: empty, of this session and the sequence it was sent under. */
  predicate Closing(c: ClientState, reply: Frame)
    reads c
  {
    reply.kind == 6 && reply.session == c.session && reply.sequence == c.next && |reply.payload| == 0
  }

  /** Nothing more can be sent. */
  predicate Over(c: ClientState)
    reads c
  {
    c.slot.Closed? || c.slot.Failed?
  }

  /** What one call leaves of a slot that is spent, and when it spends it by closing. */
  method Make(c: ClientState, call: Call) returns (accepted: bool)
    requires c.Valid()
    modifies c
    ensures c.Valid()
    ensures old(Over(c)) ==>
              && Over(c) && c.next == old(c.next) && c.issued == old(c.issued) && c.acknowledged == old(c.acknowledged)
    ensures old(c.slot).Failed? ==> c.slot.Failed? && (!call.CallFail? ==> !accepted)
    ensures call.CallClose? && accepted ==> c.slot.Closed?
    ensures call.CallClosed? ==> (accepted <==> old(c.slot).Closed? && Closing(c, call.reply)) && c.slot == old(c.slot)
  {
    match call {
      case CallProcess(frames, gain, silence) =>
        var sent := c.Process(frames, gain, silence);
        accepted := sent.Ok?;
      case CallSustained(frames, gain, silence) =>
        var sent := c.ProcessSustained(frames, gain, silence);
        accepted := sent.Ok?;
      case CallDone(reply, output) =>
        var done := c.DoneAt(reply, output);
        accepted := done.Ok?;
      case CallFail =>
        c.Fail();
        accepted := true;
      case CallClose =>
        var closed := c.Close();
        accepted := closed.Ok?;
      case CallClosed(reply) =>
        accepted := c.ClosedBy(reply);
    }
  }

  /** Any run of calls against any peer: acknowledged sequences are consecutive from the
      first, at most one more was sent than acknowledged, a failure is never undone, and
      a successful close leaves nothing unacknowledged; only then, and for good, its answer
      is taken for one. */
  method Run(c: ClientState, calls: seq<Call>) returns (accepted: seq<bool>)
    requires c.Valid()
    modifies c
    ensures c.Valid() && |accepted| == |calls|
    ensures c.acknowledged == Consecutive(c.first, |c.acknowledged|)
    ensures |c.acknowledged| <= |c.issued| <= |c.acknowledged| + 1
    ensures old(c.slot).Failed? ==> c.slot.Failed? && c.issued == old(c.issued) && c.acknowledged == old(c.acknowledged)
                                    && forall i :: 0 <= i < |calls| && !calls[i].CallFail? ==> !accepted[i]
    ensures c.slot.Closed? ==> c.issued == c.acknowledged
    ensures c.next < U64
    ensures forall i :: 0 <= i < |calls| && calls[i].CallClosed? && accepted[i] ==>
              Closing(c, calls[i].reply) && Over(c)
    ensures forall i :: 0 < i < |calls| && calls[i].CallClosed? && calls[i - 1].CallClose? && accepted[i - 1] ==>
              Over(c) && (accepted[i] <==> Closing(c, calls[i].reply))
  {
    accepted := [];
    var i := 0;
    while i < |calls|
      invariant 0 <= i <= |calls| && |accepted| == i
      invariant c.Valid()
      invariant old(c.slot).Failed? ==>
                  && c.slot.Failed? && c.issued == old(c.issued) && c.acknowledged == old(c.acknowledged)
                  && forall k :: 0 <= k < i && !calls[k].CallFail? ==> !accepted[k]
      invariant i > 0 && calls[i - 1].CallClose? && accepted[i - 1] ==> c.slot.Closed?
      invariant forall k :: 0 <= k < i && calls[k].CallClosed? && accepted[k] ==> Closing(c, calls[k].reply) && Over(c)
      invariant forall k :: 0 < k < i && calls[k].CallClosed? && calls[k - 1].CallClose? && accepted[k - 1] ==>
                  Over(c) && (accepted[k] <==> Closing(c, calls[k].reply))
    {
      var one := Make(c, calls[i]);
      accepted, i := accepted + [one], i + 1;
    }
  }
}

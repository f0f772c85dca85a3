/**
 Note and parameter events carried with an audio block (native-audio-client/src/events.rs):
 32 bytes each after a count. Floats are bit patterns.
 */
module Events {
  import opened Bytes
  import opened Floats
  import opened Wire

  const MAX_EVENTS := 256
  const EVENT_BYTES := 32
  const NOTE_ON := 0
  const NOTE_OFF := 1
  const PARAMETER := 2

  type i16 = c: int | -0x8000 <= c < 0x8000

  datatype RawEvent = Event(offset: nat, kind: nat, id: nat, channel: i16, pitch: i16, value: nat, tuning: nat,
                            reserved: nat)

  /** An event with the widths of its Rust fields. */
  type Event = e: RawEvent | e.offset < 0x1_0000_0000 && e.kind < 0x1_0000_0000 && e.id < 0x1_0000_0000
                             && e.value < 0x1_0000_0000_0000_0000 && e.tuning < 0x1_0000_0000
                                && e.reserved < 0x1_0000_0000
    witness RawEvent.Event(0, 0, 0, 0, 0, 0, 0, 0)

  predicate ValidInBlock(e: Event, frames: nat) {
    && (if e.kind == PARAMETER then e.offset <= frames else e.offset < (if frames > 1 then frames else 1))
    && Unit64(e.value) && e.reserved == 0
    && (if e.kind == NOTE_ON || e.kind == NOTE_OFF
        then frames > 0 && 0 <= e.channel < 16 && 0 <= e.pitch < 128 && Finite32(e.tuning)
        else e.kind == PARAMETER && e.channel == 0 && e.pitch == 0 && Zero32(e.tuning))
  }

  predicate ValidHost(e: Event, frames: nat) {
    frames <= 1024 && ValidInBlock(e, frames)
  }

  predicate Valid(e: Event, frames: nat) {
    frames <= CAP && e.offset < (if frames > 1 then frames else 1) && ValidHost(e, frames)
  }

  predicate Admits(e: Event, frames: nat, wholeBlock: bool) {
    if wholeBlock then ValidHost(e, frames) else Valid(e, frames)
  }

  /** What is let through: notes within a block of at least one frame, on a channel and pitch
      of MIDI's ranges with a finite tuning; parameters with none of these, which only a whole
      block may carry at its very end. */
  lemma AdmitsExactly(e: Event, frames: nat, wholeBlock: bool)
    ensures Admits(e, frames, wholeBlock) <==>
              && frames <= (if wholeBlock then 1024 else 256) && Unit64(e.value) && e.reserved == 0
              && match e.kind
                 case 0 => e.offset < frames && 0 <= e.channel <= 15 && 0 <= e.pitch <= 127 && Finite32(e.tuning)
                 case 1 => e.offset < frames && 0 <= e.channel <= 15 && 0 <= e.pitch <= 127 && Finite32(e.tuning)
                 case 2 =>
                   && e.channel == 0 && e.pitch == 0 && Zero32(e.tuning)
                   && (e.offset < frames || e.offset == 0 || (wholeBlock && e.offset == frames))
                 case _ => false
  {
  }

  // ----------------------------------------------------------- one event

  /** Two's complement. */
  function Unsigned(c: i16): (u: nat)
    ensures u < 0x1_0000
  {
    if c < 0 then c + 0x1_0000 else c
  }

  function Signed(u: nat): (c: i16)
    requires u < 0x1_0000
    ensures Unsigned(c) == u
  {
    if u >= 0x8000 then u - 0x1_0000 else u
  }

  function BytesOf(e: Event): (b: seq<byte>)
    ensures |b| == EVENT_BYTES
  {
    Put(e.offset, 4) + Put(e.kind, 4) + Put(e.id, 4) + Put(Unsigned(e.channel), 2) + Put(Unsigned(e.pitch), 2)
    + Put(e.value, 8) + Put(e.tuning, 4) + Put(e.reserved, 4)
  }

  function EventOf(b: seq<byte>): Event
    requires |b| == EVENT_BYTES
  {
    Widths();
    RawEvent.Event(Get(b[0..4]), Get(b[4..8]), Get(b[8..12]), Signed(Get(b[12..14])), Signed(Get(b[14..16])),
                   Get(b[16..24]),
                   Get(b[24..28]), Get(b[28..32]))
  }

  lemma Fields(a: seq<byte>, b: seq<byte>, c: seq<byte>, d: seq<byte>, e: seq<byte>, f: seq<byte>, g: seq<byte>,
               h: seq<byte>)
    requires |a| == |b| == |c| == |g| == |h| == 4 && |d| == |e| == 2 && |f| == 8
    ensures var s := a + b + c + d + e + f + g + h;
            && s[0..4] == a && s[4..8] == b && s[8..12] == c && s[12..14] == d && s[14..16] == e && s[16..24] == f
            && s[24..28] == g && s[28..32] == h
  {
  }

  lemma EventReadsBack(e: Event)
    ensures EventOf(BytesOf(e)) == e
  {
    Widths();
    Fields(Put(e.offset, 4), Put(e.kind, 4), Put(e.id, 4), Put(Unsigned(e.channel), 2), Put(Unsigned(e.pitch), 2),
           Put(e.value, 8), Put(e.tuning, 4), Put(e.reserved, 4));
    GetPut(e.offset, 4);
    GetPut(e.kind, 4);
    GetPut(e.id, 4);
    GetPut(Unsigned(e.channel), 2);
    GetPut(Unsigned(e.pitch), 2);
    GetPut(e.value, 8);
    GetPut(e.tuning, 4);
    GetPut(e.reserved, 4);
  }

  /** Where everything stands in a list of one event. */
  lemma EventBytes(e: Event)
    ensures var b := BytesOf(e);
            && Get(b[0..4]) == e.offset && Get(b[4..8]) == e.kind && Get(b[8..12]) == e.id
            && (Get(b[12..14]) - e.channel) % 0x1_0000 == 0 && (Get(b[14..16]) - e.pitch) % 0x1_0000 == 0
            && Get(b[16..24]) == e.value && Get(b[24..28]) == e.tuning && Get(b[28..32]) == e.reserved
  {
    EventReadsBack(e);
    Widths();
    Fields(Put(e.offset, 4), Put(e.kind, 4), Put(e.id, 4), Put(Unsigned(e.channel), 2), Put(Unsigned(e.pitch), 2),
           Put(e.value, 8), Put(e.tuning, 4), Put(e.reserved, 4));
    GetPut(Unsigned(e.channel), 2);
    GetPut(Unsigned(e.pitch), 2);
  }

  lemma BytesReadBack(b: seq<byte>)
    requires |b| == EVENT_BYTES
    ensures BytesOf(EventOf(b)) == b
  {
    Widths();
    PutGet(b[0..4]);
    PutGet(b[4..8]);
    PutGet(b[8..12]);
    PutGet(b[12..14]);
    PutGet(b[14..16]);
    PutGet(b[16..24]);
    PutGet(b[24..28]);
    PutGet(b[28..32]);
    assert b == b[0..4] + b[4..8] + b[8..12] + b[12..14] + b[14..16] + b[16..24] + b[24..28] + b[28..32];
  }

  // ------------------------------------------------------------- the list

  function Bodies(es: seq<Event>): (b: seq<byte>)
    ensures |b| == EVENT_BYTES * |es|
  {
    if es == [] then [] else BytesOf(es[0]) + Bodies(es[1..])
  }

  predicate AllAdmitted(es: seq<Event>, frames: nat, wholeBlock: bool) {
    forall i :: 0 <= i < |es| ==> Admits(es[i], frames, wholeBlock)
  }

  /** What a valid list of events looks like. */
  function Encode(es: seq<Event>, frames: nat, wholeBlock: bool): Result<seq<byte>> {
    if |es| > MAX_EVENTS then Err("event capacity")
    else if !AllAdmitted(es, frames, wholeBlock) then Err("event value/extent")
    else Ok(Put(|es|, 4) + Zeros(4) + Bodies(es))
  }

  /** Whole 32-byte chunks, in order, stopping at the first that is not a valid event. */
  function DecodeBodies(b: seq<byte>, frames: nat, wholeBlock: bool): (r: Result<seq<Event>>) {
    if |b| < EVENT_BYTES then Ok([])
    else
      var e := EventOf(b[..EVENT_BYTES]);
      if !Admits(e, frames, wholeBlock) then Err("event value/extent")
      else
        var rest :- DecodeBodies(b[EVENT_BYTES..], frames, wholeBlock);
        Ok([e] + rest)
  }

  /** `decode_for_block`. */
  function Decode(b: seq<byte>, frames: nat, wholeBlock: bool): Result<seq<Event>> {
    if |b| < 8 then Err("event header")
    else
      var n := Get(b[..4]);
      if n > MAX_EVENTS || Get(b[4..8]) != 0 || |b| != 8 + n * EVENT_BYTES then Err("event count/length/reserved")
      else DecodeBodies(b[8..], frames, wholeBlock)
  }

  lemma {:induction false} BodiesDecode(es: seq<Event>, frames: nat, wholeBlock: bool)
    requires AllAdmitted(es, frames, wholeBlock)
    ensures DecodeBodies(Bodies(es), frames, wholeBlock) == Ok(es)
  {
    if es != [] {
      AdmittedParts(es, frames, wholeBlock);
      BodiesDecode(es[1..], frames, wholeBlock);
      DecodeFirst(BytesOf(es[0]), es[0], Bodies(es[1..]), frames, wholeBlock);
      assert [es[0]] + es[1..] == es;
    }
  }

  lemma AdmittedParts(es: seq<Event>, frames: nat, wholeBlock: bool)
    requires AllAdmitted(es, frames, wholeBlock) && es != []
    ensures Admits(es[0], frames, wholeBlock) && AllAdmitted(es[1..], frames, wholeBlock)
  {
    assert forall i :: 0 <= i < |es| - 1 ==> es[1..][i] == es[i + 1];
  }

  lemma DecodeFirst(first: seq<byte>, e: Event, rest: seq<byte>, frames: nat, wholeBlock: bool)
    requires DecodeBodies(rest, frames, wholeBlock).Ok?
    requires first == BytesOf(e) && Admits(e, frames, wholeBlock)
    ensures DecodeBodies(first + rest, frames, wholeBlock) == Ok([e] + DecodeBodies(rest, frames, wholeBlock).value)
  {
    EventReadsBack(e);
    assert (first + rest)[..EVENT_BYTES] == first && (first + rest)[EVENT_BYTES..] == rest;
  }

  lemma {:induction false} DecodedBodies(b: seq<byte>, n: nat, frames: nat, wholeBlock: bool)
    requires |b| == EVENT_BYTES * n && DecodeBodies(b, frames, wholeBlock).Ok?
    ensures var es := DecodeBodies(b, frames, wholeBlock).value;
            Bodies(es) == b && AllAdmitted(es, frames, wholeBlock) && |es| == n
  {
    if n > 0 {
      DecodedBodies(b[EVENT_BYTES..], n - 1, frames, wholeBlock);
      BytesReadBack(b[..EVENT_BYTES]);
      var rest := DecodeBodies(b[EVENT_BYTES..], frames, wholeBlock).value;
      var es := [EventOf(b[..EVENT_BYTES])] + rest;
      assert es[1..] == rest;
      assert b == b[..EVENT_BYTES] + b[EVENT_BYTES..];
    }
  }

  /** A list begins with its length and four zeros. */
  lemma EncodedHead(es: seq<Event>, frames: nat, wholeBlock: bool)
    ensures Encode(es, frames, wholeBlock).Ok? <==>
              |es| <= 256 && forall i :: 0 <= i < |es| ==> Admits(es[i], frames, wholeBlock)
    ensures Encode(es, frames, wholeBlock).Ok? ==>
              var b := Encode(es, frames, wholeBlock).value;
              |b| == 8 + 32 * |es| && Get(b[..4]) == |es| && b[4..8] == [0, 0, 0, 0]
  {
    if Encode(es, frames, wholeBlock).Ok? {
      Widths();
      GetPut(|es|, 4);
      HeadParts(Put(|es|, 4), Zeros(4), Bodies(es));
    }
  }

  /** Canonical both ways: bytes decode to a list of events exactly when they are its encoding. */
  lemma DecodeIff(b: seq<byte>, es: seq<Event>, frames: nat, wholeBlock: bool)
    ensures Decode(b, frames, wholeBlock) == Ok(es) <==> Encode(es, frames, wholeBlock) == Ok(b)
  {
    if Encode(es, frames, wholeBlock) == Ok(b) {
      EncodedDecodes(b, es, frames, wholeBlock);
    }
    if Decode(b, frames, wholeBlock) == Ok(es) {
      DecodedEncodes(b, es, frames, wholeBlock);
    }
  }

  lemma EncodedDecodes(b: seq<byte>, es: seq<Event>, frames: nat, wholeBlock: bool)
    requires Encode(es, frames, wholeBlock) == Ok(b)
    ensures Decode(b, frames, wholeBlock) == Ok(es)
  {
    Widths();
    GetPut(|es|, 4);
    GetPut(0, 4);
    PutZero(4);
    HeadParts(Put(|es|, 4), Zeros(4), Bodies(es));
    BodiesDecode(es, frames, wholeBlock);
  }

  lemma DecodedEncodes(b: seq<byte>, es: seq<Event>, frames: nat, wholeBlock: bool)
    requires Decode(b, frames, wholeBlock) == Ok(es)
    ensures Encode(es, frames, wholeBlock) == Ok(b)
  {
    DecodedBodies(b[8..], Get(b[..4]), frames, wholeBlock);
    PutGet(b[..4]);
    PutGet(b[4..8]);
    PutZero(4);
    Thirds(b);
  }

  lemma Thirds(b: seq<byte>)
    requires |b| >= 8
    ensures b == b[..4] + b[4..8] + b[8..]
  {
  }

  lemma HeadParts(a: seq<byte>, z: seq<byte>, rest: seq<byte>)
    requires |a| == |z| == 4
    ensures var b := a + z + rest; b[..4] == a && b[4..8] == z && b[8..] == rest
  {
  }

  // ------------------------------------------------------------- in place

  /** `encode_for_block`: the buffer grows by the whole list at once, and each event is then
      written over its own 32 bytes; an event that is not valid leaves the rest as zeros. */
  method EncodeForBlock(es: seq<Event>, frames: nat, buffer: array<byte>, wholeBlock: bool)
    returns (ok: bool, grown: array<byte>)
    ensures ok <==> Encode(es, frames, wholeBlock).Ok?
    ensures ok ==> fresh(grown) && grown[..] == buffer[..] + Encode(es, frames, wholeBlock).value
    ensures !ok ==> grown[..] == buffer[..] || (fresh(grown) && buffer[..] <= grown[..])
  {
    if |es| > MAX_EVENTS {
      return false, buffer;
    }
    ghost var prior, head := buffer[..], Put(|es|, 4) + Zeros(4);
    grown := Grow(buffer, |es|);
    assert grown[..] == Partly(prior, head, es, 0);
    var i := 0;
    while i < |es|
      invariant 0 <= i <= |es| && fresh(grown)
      invariant AllAdmitted(es[..i], frames, wholeBlock)
      invariant grown[..] == Partly(prior, head, es, i)
    {
      if !Admits(es[i], frames, wholeBlock) {
        NotAllAdmitted(es, i, frames, wholeBlock);
        StartsWith(prior, head, es, i);
        return false, grown;
      }
      AppendEvent(grown, buffer.Length, es, i, prior, head);
      AdmittedOn(es, i, frames, wholeBlock);
      i := i + 1;
    }
    AllDone(prior, head, es);
    ok := true;
  }

  lemma AdmittedOn(es: seq<Event>, i: nat, frames: nat, wholeBlock: bool)
    requires i < |es| && AllAdmitted(es[..i], frames, wholeBlock) && Admits(es[i], frames, wholeBlock)
    ensures AllAdmitted(es[..i + 1], frames, wholeBlock)
  {
    assert forall k :: 0 <= k < i ==> es[..i][k] == es[k];
  }

  lemma NotAllAdmitted(es: seq<Event>, i: nat, frames: nat, wholeBlock: bool)
    requires i < |es| && !Admits(es[i], frames, wholeBlock)
    ensures !AllAdmitted(es, frames, wholeBlock)
  {
  }

  /** The buffer after `i` events: they stand written, the room of the others is zeros. */
  ghost function Partly(prior: seq<byte>, head: seq<byte>, es: seq<Event>, i: nat): seq<byte>
    requires i <= |es|
  {
    prior + head + Bodies(es[..i]) + Zeros(EVENT_BYTES * (|es| - i))
  }

  lemma StartsWith(prior: seq<byte>, head: seq<byte>, es: seq<Event>, i: nat)
    requires i <= |es|
    ensures prior <= Partly(prior, head, es, i)
  {
  }

  lemma AllDone(prior: seq<byte>, head: seq<byte>, es: seq<Event>)
    ensures Partly(prior, head, es, |es|) == prior + (head + Bodies(es)) && es[..|es|] == es
  {
    assert es[..|es|] == es;
    Unpadded(prior, head, Bodies(es));
  }

  lemma Unpadded(a: seq<byte>, b: seq<byte>, c: seq<byte>)
    ensures a + b + c + Zeros(EVENT_BYTES * 0) == a + (b + c)
  {
  }

  method AppendEvent(grown: array<byte>, start: nat, es: seq<Event>, i: nat, ghost prior: seq<byte>,
                     ghost head: seq<byte>)
    requires i < |es| && |head| == 8 && |prior| == start && es[i].reserved == 0
             && grown[..] == Partly(prior, head, es, i)
    modifies grown
    ensures grown[..] == Partly(prior, head, es, i + 1)
  {
    Room(prior, head, Bodies(es[..i]), EVENT_BYTES * (|es| - i));
    WriteEvent(grown, start + 8 + EVENT_BYTES * i, es[i]);
    NextBody(prior, head, es, i, grown[..]);
  }

  /** The buffer with a count and room for that many events. */
  method Grow(buffer: array<byte>, n: nat) returns (grown: array<byte>)
    ensures fresh(grown) && grown[..] == buffer[..] + (Put(n, 4) + Zeros(4)) + [] + Zeros(EVENT_BYTES * n)
  {
    var total := buffer.Length + 8 + EVENT_BYTES * n;
    grown := new byte[total](i requires 0 <= i < total reads buffer => if i < buffer.Length then buffer[i] else 0);
    ghost var prior := buffer[..];
    assert grown[..] == prior + [] + Zeros(8 + EVENT_BYTES * n);
    ghost var more;
    var at;
    at, more := PutNext(grown, buffer.Length, 4, n, prior, [], Zeros(8 + EVENT_BYTES * n));
    ZerosParts(prior, Put(n, 4), EVENT_BYTES * n);
  }

  lemma ZerosParts(prior: seq<byte>, count: seq<byte>, n: nat)
    requires |count| == 4
    ensures prior + ([] + count) + Zeros(8 + n)[4..] == prior + (count + Zeros(4)) + [] + Zeros(n)
  {
  }

  lemma Room(prior: seq<byte>, head: seq<byte>, bodies: seq<byte>, n: nat)
    requires |head| == 8 && n >= EVENT_BYTES
    ensures var b := prior + head + bodies + Zeros(n); var at := |prior| + 8 + |bodies|;
            at + EVENT_BYTES <= |b| && b[at + 28..at + 32] == Zeros(4)
  {
  }

  /** The next field, written where the fields so far end. */
  method PutNext(b: array<byte>, at: nat, n: nat, v: nat, ghost head: seq<byte>, ghost done: seq<byte>,
                 ghost whole: seq<byte>)
    returns (next: nat, ghost more: seq<byte>)
    requires |done| + n <= |whole| && b[..] == head + done + whole[|done|..] && at == |head| + |done|
    modifies b
    ensures next == at + n && more == done + Put(v, n) && b[..] == head + more + whole[|more|..]
  {
    next, more := at + n, done + Put(v, n);
    ghost var before := b[..];
    assert before[..at] == head + done && before[at + n..] == whole[|done| + n..];
    PutInto(b, at, n, v);
  }

  /** One event written over the zeros that stand where the list goes on. */
  method WriteEvent(b: array<byte>, at0: nat, e: Event)
    requires at0 + EVENT_BYTES <= b.Length && e.reserved == 0 && b[at0 + 28..at0 + 32] == Zeros(4)
    modifies b
    ensures b[..] == old(b[..at0]) + BytesOf(e) + old(b[at0 + EVENT_BYTES..])
  {
    ghost var head, done, whole, tail := b[..at0], [], b[at0..], b[at0 + EVENT_BYTES..];
    assert b[..] == head + done + whole[|done|..];
    assert whole[28..] == Zeros(4) + tail;
    var at := at0;
    at, done := PutNext(b, at, 4, e.offset, head, done, whole);
    at, done := PutNext(b, at, 4, e.kind, head, done, whole);
    at, done := PutNext(b, at, 4, e.id, head, done, whole);
    at, done := PutNext(b, at, 2, Unsigned(e.channel), head, done, whole);
    at, done := PutNext(b, at, 2, Unsigned(e.pitch), head, done, whole);
    at, done := PutNext(b, at, 8, e.value, head, done, whole);
    at, done := PutNext(b, at, 4, e.tuning, head, done, whole);
    PutZero(4);
    EventEnds(e, done);
    Finished(head, done, Zeros(4), tail);
  }

  lemma EventEnds(e: Event, done: seq<byte>)
    requires e.reserved == 0 && Put(0, 4) == Zeros(4)
    requires done == [] + Put(e.offset, 4) + Put(e.kind, 4) + Put(e.id, 4)
                     + Put(Unsigned(e.channel), 2) + Put(Unsigned(e.pitch), 2)
                     + Put(e.value, 8) + Put(e.tuning, 4)
    ensures BytesOf(e) == done + Zeros(4)
  {
    assert [] + Put(e.offset, 4) == Put(e.offset, 4);
  }

  lemma Finished(head: seq<byte>, done: seq<byte>, zeros: seq<byte>, tail: seq<byte>)
    ensures head + done + (zeros + tail) == head + (done + zeros) + tail
  {
  }

  lemma NextBody(prior: seq<byte>, head: seq<byte>, es: seq<Event>, i: nat, now: seq<byte>)
    requires i < |es| && |head| == 8
    requires var before := prior + head + Bodies(es[..i]) + Zeros(EVENT_BYTES * (|es| - i));
             var at := |prior| + 8 + EVENT_BYTES * i;
             at + EVENT_BYTES <= |before| && now == before[..at] + BytesOf(es[i]) + before[at + EVENT_BYTES..]
    ensures now == prior + head + Bodies(es[..i + 1]) + Zeros(EVENT_BYTES * (|es| - i - 1))
  {
    BodiesOn(es[..i], es[i]);
    assert es[..i + 1] == es[..i] + [es[i]];
  }

  lemma {:induction false} BodiesOn(es: seq<Event>, e: Event)
    ensures Bodies(es + [e]) == Bodies(es) + BytesOf(e)
  {
    if es != [] {
      BodiesOn(es[1..], e);
      assert (es + [e])[1..] == es[1..] + [e];
    }
  }
}

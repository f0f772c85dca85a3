/**
 The bounded state stream and its framing (vst-state/stream.h): a file with a cursor and
 a limit, transfers through streams that move less than asked, and the state envelope.
 Call counters and interface queries are left out.
 */
module StateStream {
  import opened Bytes

  const PAYLOAD_LIMIT := 268435456
  const OVERHEAD := 104

  // ------------------------------------------------------- a plain file

  function Padded(contents: seq<byte>, n: nat): (p: seq<byte>)
    ensures |p| == if n > |contents| then n else |contents|
  {
    if n > |contents| then contents + Zeros(n - |contents|) else contents
  }

  /** The data laid over the contents at a position: old bytes elsewhere, zeros between. */
  function Overlay(contents: seq<byte>, at: nat, data: seq<byte>): (o: seq<byte>)
    ensures |o| == if at + |data| > |contents| then at + |data| else |contents|
  {
    seq(if at + |data| > |contents| then at + |data| else |contents|,
        i requires i >= 0 => Laying(contents, at, data, i))
  }

  function Laying(contents: seq<byte>, at: nat, data: seq<byte>, i: nat): byte {
    if at <= i < at + |data| then data[i - at] else if i < |contents| then contents[i] else 0
  }

  /** Laying data is growing the file with zeros and then copying the data in. */
  lemma OverlayIsResizeAndCopy(contents: seq<byte>, at: nat, data: seq<byte>)
    ensures var p := Padded(contents, at + |data|);
            Overlay(contents, at, data) == p[..at] + data + p[at + |data|..]
  {
    var p := Padded(contents, at + |data|);
    assert forall i :: 0 <= i < |p| ==> p[i] == if i < |contents| then contents[i] else 0;
  }

  function First(n: int, data: seq<byte>): seq<byte> {
    if n <= 0 then [] else if n <= |data| then data[..n] else data
  }

  datatype SeekMode = SeekSet | SeekCurrent | SeekEnd | SeekOther

  datatype Op =
    | Read(n: int, buffer: bool)
    | Write(n: int, data: seq<byte>, present: bool, allocates: bool)
    | Seek(offset: int, mode: SeekMode)

  /** The plain model: what a file with a limit is at any moment, and when it has failed. */
  datatype File = File(contents: seq<byte>, position: nat, failed: bool, exceeded: bool, limit: nat) {
    predicate Within() {
      position <= limit && |contents| <= limit
    }

    function Base(mode: SeekMode): int {
      match mode
      case SeekSet => 0
      case SeekCurrent => position
      case SeekEnd => |contents|
      case SeekOther => -1
    }

    /** How many bytes a read gets; none when it is refused. */
    function Got(op: Op): nat
      requires op.Read?
    {
      if failed || op.n < 0 || (op.n > 0 && !op.buffer) || position > |contents| then 0
      else if op.n < |contents| - position then op.n else |contents| - position
    }

    function After(op: Op): File {
      match op
      case Read(_, _) => this.(position := position + Got(op))
      case Write(n, data, present, allocates) =>
        if failed || n < 0 || (n > 0 && !present) then this.(failed := true)
        else if position > limit || n > limit - position then this.(failed := true, exceeded := true)
        else if !allocates then this.(failed := true)
        else this.(contents := Overlay(contents, position, First(n, data)), position := position + |First(n, data)|)
      case Seek(offset, mode) =>
        if failed || Base(mode) < 0 || offset < -Base(mode) then this
        else if offset > limit - Base(mode) then this.(failed := true, exceeded := true)
        else this.(position := Base(mode) + offset)
    }
  }

  /** A write lays its bytes where the cursor stands and moves it past them, exactly if it is
      asked properly, has memory and stays within the limit; otherwise it fails for good, and
      only for the limit's sake is that remembered as such. */
  lemma WriteExactly(m: File, n: int, data: seq<byte>, present: bool, allocates: bool)
    requires present ==> n <= |data|
    ensures var u := m.After(Op.Write(n, data, present, allocates));
            var asked := !m.failed && n >= 0 && (n == 0 || present);
            && (!u.failed <==> asked && allocates && m.position + n <= m.limit)
            && (u.exceeded <==> m.exceeded || (asked && m.position + n > m.limit)) && u.limit == m.limit
            && (u.failed ==> u.contents == m.contents && u.position == m.position)
            && (!u.failed ==>
                  && u.position == m.position + n
                  && |u.contents| == (if u.position > |m.contents| then u.position else |m.contents|)
                  && forall i :: 0 <= i < |u.contents| ==>
                       u.contents[i] == if m.position <= i < u.position then data[i - m.position]
                                        else if i < |m.contents| then m.contents[i] else 0)
  {
  }

  /** The caller has the bytes it offers to write. */
  predicate WellFormed(op: Op) {
    op.Write? && op.present ==> op.n <= |op.data|
  }

  ghost function AfterAll(m: File, ops: seq<Op>): File
    decreases |ops|
  {
    if ops == [] then m else AfterAll(m, ops[..|ops| - 1]).After(ops[|ops| - 1])
  }

  /** Any run stays within the limit, and failure is for ever: contents, limit and cursor
      as they were when it came. */
  lemma {:induction false} RunLaws(m: File, ops: seq<Op>)
    ensures (m.Within() ==> AfterAll(m, ops).Within()) && AfterAll(m, ops).limit == m.limit
    ensures m.failed ==>
              && AfterAll(m, ops).failed && AfterAll(m, ops).contents == m.contents
              && AfterAll(m, ops).position == m.position
    decreases |ops|
  {
    if ops != [] {
      RunLaws(m, ops[..|ops| - 1]);
    }
  }

  // ---------------------------------------------------------- the stream

  /** The bytes between two cursor positions. */
  function Span(bytes: seq<byte>, from: nat, to: nat): seq<byte> {
    if from <= to <= |bytes| then bytes[from..to] else []
  }

  lemma SpanOn(bytes: seq<byte>, i: nat, j: nat, k: nat)
    requires i <= j <= k && (i == j || j <= |bytes|) && (j == k || k <= |bytes|)
    ensures Span(bytes, i, j) + Span(bytes, j, k) == Span(bytes, i, k)
    ensures |Span(bytes, i, k)| == k - i
  {
  }

  /** `got` was put into a buffer at `from`, and nothing else changed. */
  ghost predicate Filled(before: seq<byte>, after: seq<byte>, from: nat, got: seq<byte>) {
    from + |got| <= |before| && after == before[..from] + got + before[from + |got|..]
  }

  lemma FilledNothing(b: seq<byte>, from: nat)
    requires from <= |b|
    ensures Filled(b, b, from, [])
  {
  }

  lemma FilledOn(a: seq<byte>, b: seq<byte>, c: seq<byte>, from: nat, g: seq<byte>, h: seq<byte>)
    requires Filled(a, b, from, g) && Filled(b, c, from + |g|, h)
    ensures Filled(a, c, from, g + h)
  {
    assert b[..from + |g|] == a[..from] + g;
    assert b[from + |g|..] == a[from + |g|..];
    assert b[from + |g| + |h|..] == a[from + |g| + |h|..];
  }

  datatype Code = ResultOk | ResultFalse | OtherResult

  class Stream {
    var bytes: seq<byte>
    var position: nat
    var failed: bool
    var capacityExceeded: bool
    const limit: nat

    ghost function State(): File
      reads this
    {
      File(bytes, position, failed, capacityExceeded, limit)
    }

    constructor (input: seq<byte>, limit: nat)
      ensures State() == File(input, 0, |input| > limit, |input| > limit, limit)
    {
      bytes, position, this.limit := input, 0, limit;
      failed, capacityExceeded := |input| > limit, |input| > limit;
    }

    /** `read` into out[from..]; the count is the result, even at the end. */
    method Read(out: array?<byte>, from: nat, n: int) returns (code: Code, count: int)
      requires out != null && n > 0 ==> from + n <= out.Length
      modifies this`position, out
      ensures State() == old(State()).After(Op.Read(n, out != null))
              && count == old(State()).Got(Op.Read(n, out != null))
      ensures code == if old(failed) || n < 0 || (n > 0 && out == null) || old(position) > |bytes| then ResultFalse
              else ResultOk
      ensures code == ResultFalse ==> count == 0
      ensures code == ResultOk ==> count == if n < |bytes| - old(position) then n else |bytes| - old(position)
      ensures position == old(position) + count
      ensures out != null && n > 0 ==> Filled(old(out[..]), out[..], from, Span(bytes, old(position), position))
    {
      if out != null && n > 0 {
        FilledNothing(out[..], from);
      }
      if failed || n < 0 || (n > 0 && out == null) || position > |bytes| {
        return ResultFalse, 0;
      }
      count := if n < |bytes| - position then n else |bytes| - position;
      if count > 0 {
        CopyInto(out, from, bytes[position..position + count]);
      }
      position := position + count;
      return ResultOk, count;
    }

    /** `write` of input[from..]; a refused write fails the stream. */
    method Write(input: array?<byte>, from: nat, n: int, allocates: bool) returns (code: Code, count: int)
      requires input != null && n > 0 ==> from + n <= input.Length
      modifies this
      ensures var data := if input == null || n <= 0 then [] else input[from..from + n];
              State() == old(State()).After(Op.Write(n, data, input != null, allocates))
      ensures code == if failed then ResultFalse else ResultOk
      ensures count == if failed then 0 else n
    {
      if failed || n < 0 || (n > 0 && input == null) {
        failed := true;
        return ResultFalse, 0;
      }
      if position > limit || n > limit - position {
        failed, capacityExceeded := true, true;
        return ResultFalse, 0;
      }
      if !allocates {
        failed := true;
        return ResultFalse, 0;
      }
      var end := position + n;
      ghost var before, at := bytes, position;
      bytes := Padded(bytes, end);
      if n > 0 {
        bytes := bytes[..position] + input[from..from + n] + bytes[end..];
        OverlayIsResizeAndCopy(before, at, input[from..from + n]);
        assert First(n, input[from..from + n]) == input[from..from + n];
      } else {
        OverlayIsResizeAndCopy(before, at, []);
        assert bytes == bytes[..position] + [] + bytes[position..];
      }
      position := end;
      return ResultOk, n;
    }

    method Seek(offset: int, mode: SeekMode) returns (code: Code, result: Option<nat>)
      modifies this
      ensures State() == old(State()).After(Op.Seek(offset, mode))
      ensures code == ResultOk ==> result == Some(position)
      ensures bytes == old(bytes)
      ensures var target := offset + match mode
                                     case SeekSet => 0
                                     case SeekCurrent => old(position)
                                     case SeekEnd => |bytes|
                                     case SeekOther => 0;
              && (code == ResultOk <==> !old(failed) && !mode.SeekOther? && 0 <= target <= limit)
              && position == (if code == ResultOk then target else old(position))
              && (failed <==> old(failed) || (!mode.SeekOther? && target > limit))
    {
      var base :=
        match mode case SeekSet => 0 case SeekCurrent => position case SeekEnd => |bytes| case SeekOther => -1;
      if failed || base < 0 || offset < -base {
        return ResultFalse, None;
      }
      if offset > limit - base {
        failed, capacityExceeded := true, true;
        return ResultFalse, None;
      }
      position := base + offset;
      return ResultOk, Some(position);
    }
  }

  /** Any sequence of operations on a stream is that sequence on the plain file. */
  method RunAll(s: Stream, ops: seq<Op>)
    requires forall i :: 0 <= i < |ops| ==> WellFormed(ops[i])
    modifies s
    ensures s.State() == AfterAll(old(s.State()), ops)
  {
    var i := 0;
    while i < |ops|
      invariant 0 <= i <= |ops| && s.State() == AfterAll(old(s.State()), ops[..i])
    {
      assert ops[..i + 1][..i] == ops[..i];
      match ops[i] {
        case Read(n, buffer) =>
          var out := new byte[if n > 0 then n else 0];
          var code, count := s.Read(if buffer then out else null, 0, n);
        case Write(n, data, present, allocates) =>
          var input := new byte[|data|](k requires 0 <= k < |data| => data[k]);
          assert input[..] == data;
          var code, count := s.Write(if present then input else null, 0, n, allocates);
          SameWrite(AfterAll(old(s.State()), ops[..i]), n, data, present, allocates, if !present then []
                    else First(n, data));
        case Seek(offset, mode) =>
          var code, result := s.Seek(offset, mode);
      }
      i := i + 1;
    }
    assert ops[..i] == ops;
  }

  lemma SameWrite(m: File, n: int, data: seq<byte>, present: bool, allocates: bool, given: seq<byte>)
    requires given == if !present then [] else First(n, data)
    requires present ==> n <= |data|
    ensures m.After(Op.Write(n, data, present, allocates)) == m.After(Op.Write(n, given, present, allocates))
  {
  }

  // ------------------------------------------------------------- transfers

  /** How a stream answers one call: moving at least one byte if it can but perhaps fewer
      than asked, under either ordinary code; or with a count or code that makes no sense. */
  datatype Reply = Short(most: nat, success: bool) | Nonsense(count: int, code: Code)

  /** Any stream a plug-in may hand over, moving the bytes of an underlying one. */
  class Port {
    const stream: Stream
    /** It only ever moves fewer bytes than asked, and says so. */
    const honest: bool
    var replies: seq<Reply>

    constructor (stream: Stream, honest: bool, replies: seq<Reply>)
      ensures this.stream == stream && this.honest == honest && this.replies == replies
    {
      this.stream, this.honest, this.replies := stream, honest, replies;
    }

    method NextReply(n: nat) returns (r: Reply)
      modifies this`replies
      ensures r.Nonsense? ==> r.count < 1 || r.count > n || r.code == OtherResult
      ensures r.Short? && n > 0 ==> 1 <= r.most <= n
      ensures honest ==> r.Short? && r.success
    {
      r := if replies == [] || (honest && !(replies[0].Short? && replies[0].success)) then Short(n, true)
          else replies[0];
      replies := if replies == [] then [] else replies[1..];
      if r.Short? {
        r := Short(if r.most < 1 then 1 else if r.most > n then n else r.most, r.success);
      } else if r.code != OtherResult && 1 <= r.count <= n {
        r := Nonsense(0, r.code);
      }
    }

    method Read(out: array<byte>, from: nat, n: nat) returns (code: Code, count: int)
      requires n > 0 && from + n <= out.Length
      modifies this`replies, stream`position, out
      ensures Took(stream, old(stream.position), n)
              && Filled(old(out[..]), out[..], from, Span(stream.bytes, old(stream.position), stream.position))
      ensures Sensible(code, count, n) ==> count == stream.position - old(stream.position)
      ensures honest ==> count == stream.position - old(stream.position) && code != OtherResult
                                && (count > 0 ==> code == ResultOk)
                                && (count == 0 <==> stream.failed || old(stream.position) >= |stream.bytes|)
    {
      var r := NextReply(n);
      FilledNothing(out[..], from);
      if r.Nonsense? {
        return r.code, r.count;
      }
      code, count := stream.Read(out, from, r.most);
      if !r.success && code == ResultOk {
        code := ResultFalse;
      }
    }

    method Write(input: array<byte>, from: nat, n: nat) returns (code: Code, count: int)
      requires n > 0 && from + n <= input.Length
      modifies this`replies, stream
      ensures old(stream.position) <= stream.position <= old(stream.position) + n
      ensures Laid(old(stream.bytes), stream.bytes, old(stream.position),
                   input[from..from + (stream.position - old(stream.position))])
      ensures Sensible(code, count, n) ==> count == stream.position - old(stream.position)
      ensures honest ==> Wrote(stream, old(stream.failed), old(stream.position), code, count, n)
    {
      var r := NextReply(n);
      if r.Nonsense? {
        return r.code, r.count;
      }
      code, count := stream.Write(input, from, r.most, true);
      assert First(r.most, input[from..from + r.most]) == input[from..from + r.most];
      if !r.success && code == ResultOk {
        code := ResultFalse;
      }
    }
  }

  /** A write that only ever takes fewer bytes fails for want of room alone. */
  ghost predicate Wrote(s: Stream, failed: bool, at: nat, code: Code, count: int, n: nat)
    reads s
  {
    if s.failed then !Sensible(code, count, n) && (failed || at + n > s.limit)
    else code == ResultOk && !failed && s.position <= s.limit && 1 <= count <= n
  }

  /** The cursor moved over at most `n` bytes that are there. */
  ghost predicate Took(s: Stream, from: nat, n: nat)
    reads s
  {
    from <= s.position <= from + n && (from == s.position || (s.position <= |s.bytes| && !s.failed))
  }

  /** Some bytes, if any, were laid over the contents. */
  ghost predicate Laid(before: seq<byte>, after: seq<byte>, at: nat, data: seq<byte>) {
    after == if data == [] then before else Overlay(before, at, data)
  }

  lemma LaidOn(a: seq<byte>, b: seq<byte>, c: seq<byte>, at: nat, g: seq<byte>, h: seq<byte>)
    requires Laid(a, b, at, g) && Laid(b, c, at + |g|, h)
    ensures Laid(a, c, at, g + h)
  {
    if g != [] && h != [] {
      OverlayTwice(a, at, g, h);
    } else {
      assert g == [] ==> g + h == h;
      assert h == [] ==> g + h == g;
    }
  }

  /** An answer `transfer` goes on from. */
  predicate Sensible(code: Code, count: int, requested: nat) {
    0 < count <= requested && code != OtherResult
  }

  lemma OverlayTwice(c: seq<byte>, at: nat, a: seq<byte>, b: seq<byte>)
    ensures Overlay(Overlay(c, at, a), at + |a|, b) == Overlay(c, at, a + b)
  {
  }

  /** `transfer` from a stream: what the buffer gets is what the stream gave up, all `n`
      bytes of it or the answer is false. */
  method TransferIn(port: Port, buf: array<byte>, from: nat, n: nat) returns (ok: bool)
    requires from + n <= buf.Length
    modifies port`replies, port.stream`position, buf
    ensures Took(port.stream, old(port.stream.position), n)
    ensures Filled(old(buf[..]), buf[..], from,
                   Span(port.stream.bytes, old(port.stream.position), port.stream.position))
    ensures ok ==> port.stream.position == old(port.stream.position) + n && n <= PAYLOAD_LIMIT + OVERHEAD
    ensures port.honest ==> (ok <==> n <= PAYLOAD_LIMIT + OVERHEAD && Available(port.stream, old(port.stream.position),
            n))
  {
    var s := port.stream;
    FilledNothing(buf[..], from);
    if n > PAYLOAD_LIMIT + OVERHEAD {
      return false;
    }
    ghost var start, initial := s.position, buf[..];
    var done := 0;
    while done < n
      invariant 0 <= done <= n && s.position == start + done && Took(s, start, n)
      invariant Filled(initial, buf[..], from, Span(s.bytes, start, s.position))
      decreases n - done
    {
      var code, count := ReadPiece(port, buf, from, n, done, start, initial);
      if !Sensible(code, count, n - done) {
        return false;
      }
      done := done + count;
      if code != ResultOk && done < n {
        return false;
      }
    }
    return true;
  }

  method ReadPiece(port: Port, buf: array<byte>, from: nat, n: nat, done: nat, ghost start: nat,
                   ghost initial: seq<byte>)
    returns (code: Code, count: int)
    requires done < n && from + n <= buf.Length && port.stream.position == start + done && Took(port.stream, start, n)
    requires Filled(initial, buf[..], from, Span(port.stream.bytes, start, port.stream.position))
    modifies port`replies, port.stream`position, buf
    ensures Took(port.stream, start, n) && port.stream.position >= start + done
    ensures Filled(initial, buf[..], from, Span(port.stream.bytes, start, port.stream.position))
    ensures Sensible(code, count, n - done) ==> port.stream.position == start + done + count
    ensures port.honest ==> code != OtherResult && count == port.stream.position - start - done
                                   && (count > 0 ==> code == ResultOk)
                                   && (count == 0 <==> port.stream.failed || start + done >= |port.stream.bytes|)
  {
    var s := port.stream;
    ghost var before, at := buf[..], s.position;
    SpanOn(s.bytes, start, at, at);
    code, count := port.Read(buf, from + done, n - done);
    SpanOn(s.bytes, start, at, s.position);
    FilledOn(initial, before, buf[..], from, Span(s.bytes, start, at), Span(s.bytes, at, s.position));
  }

  /** The stream has `n` more bytes to give. */
  ghost predicate Available(s: Stream, from: nat, n: nat)
    reads s
  {
    n == 0 || (!s.failed && from + n <= |s.bytes|)
  }

  /** `transfer` to a stream: the file is overlaid with a beginning of the buffer, the whole
      of it or the answer is false. */
  method TransferOut(port: Port, buf: array<byte>, from: nat, n: nat) returns (ok: bool)
    requires from + n <= buf.Length
    modifies port`replies, port.stream
    ensures old(port.stream.position) <= port.stream.position <= old(port.stream.position) + n
    ensures Laid(old(port.stream.bytes), port.stream.bytes, old(port.stream.position),
                 buf[from..from + (port.stream.position - old(port.stream.position))])
    ensures ok ==> port.stream.position == old(port.stream.position) + n && n <= PAYLOAD_LIMIT + OVERHEAD
    ensures port.honest ==>
              (ok <==> n <= PAYLOAD_LIMIT + OVERHEAD
                       && (n == 0 || (!old(port.stream.failed) && old(port.stream.position) + n <= port.stream.limit)))
  {
    var s := port.stream;
    if n > PAYLOAD_LIMIT + OVERHEAD {
      return false;
    }
    ghost var start, bytes, data := s.position, s.bytes, buf[from..from + n];
    var done := 0;
    while done < n
      invariant 0 <= done <= n && s.position == start + done && Laid(bytes, s.bytes, start, data[..done])
      invariant port.honest ==> s.failed == old(s.failed) && (done > 0 ==> !s.failed && s.position <= s.limit)
      decreases n - done
    {
      var code, count := WritePiece(port, buf, from, n, done, start, bytes, data);
      Beginning(buf, data, from, n, s.position - start);
      if !Sensible(code, count, n - done) {
        return false;
      }
      done := done + count;
      if code != ResultOk && done < n {
        return false;
      }
    }
    return true;
  }

  method WritePiece(port: Port, buf: array<byte>, from: nat, n: nat, done: nat, ghost start: nat,
                    ghost bytes: seq<byte>, ghost data: seq<byte>)
    returns (code: Code, count: int)
    requires done < n && from + n <= buf.Length && port.stream.position == start + done && data == buf[from..from + n]
    requires Laid(bytes, port.stream.bytes, start, data[..done])
    modifies port`replies, port.stream
    ensures start + done <= port.stream.position <= start + n
    ensures Laid(bytes, port.stream.bytes, start, data[..port.stream.position - start])
    ensures Sensible(code, count, n - done) ==> port.stream.position == start + done + count
    ensures port.honest ==> Wrote(port.stream, old(port.stream.failed), start + done, code, count, n - done)
  {
    var s := port.stream;
    ghost var before := s.bytes;
    code, count := port.Write(buf, from + done, n - done);
    ghost var now := s.position - start;
    Pieces(buf[..], data, from, n, done, now);
    LaidOn(bytes, before, s.bytes, start, data[..done], data[done..now]);
  }

  lemma Beginning(buf: array<byte>, data: seq<byte>, from: nat, n: nat, k: nat)
    requires from + n <= buf.Length && data == buf[from..from + n] && k <= n
    ensures data[..k] == buf[from..from + k]
  {
    SliceOfSlice(buf[..], from, from + n, 0, k);
  }

  lemma Pieces(b: seq<byte>, data: seq<byte>, from: nat, n: nat, done: nat, now: nat)
    requires from + n <= |b| && data == b[from..from + n] && done <= now <= n
    ensures data[done..now] == b[from + done..from + done + (now - done)]
    ensures data[..done] + data[done..now] == data[..now]
  {
    SliceOfSlice(b, from, from + n, done, now);
  }

  // ------------------------------------------------------------- envelope

  /** An envelope: 104 bytes, of which four at 64 give the payload's length, and the payload. */
  predicate Enveloped(rest: seq<byte>) {
    |rest| >= OVERHEAD && Get(rest[64..68]) <= PAYLOAD_LIMIT && |rest| == OVERHEAD + Get(rest[64..68])
  }

  /** `readEnvelope` succeeds exactly when the rest of the stream is one envelope, and then
      returns it; a stream that gives up its bytes in any pieces makes no difference. */
  method ReadEnvelope(port: Port) returns (ok: bool, b: array<byte>)
    modifies port`replies, port.stream`position
    ensures fresh(b)
    ensures ok ==>
              !port.stream.failed && b.Length >= OVERHEAD && old(port.stream.position) + b.Length <= |port.stream.bytes|
                   && b[..] == Span(port.stream.bytes, old(port.stream.position), old(port.stream.position) + b.Length)
    ensures port.honest ==> (ok <==> EnvelopeAt(port.stream, old(port.stream.position)))
    ensures port.honest && ok ==> b[..] == port.stream.bytes[old(port.stream.position)..]
  {
    ghost var start, bytes := port.stream.position, port.stream.bytes;
    var n;
    ok, b, n := ReadHead(port);
    if ok {
      ghost var head := b[..];
      EnvelopeIs(bytes, start, head, n);
      if n > PAYLOAD_LIMIT {
        return false, b;
      }
      ok, b := ReadPayload(port, b, n, start);
      if ok {
        ok := AtEnd(port);
      }
    }
  }

  /** The fixed part and the length it announces. */
  method ReadHead(port: Port) returns (ok: bool, b: array<byte>, n: nat)
    modifies port`replies, port.stream`position
    ensures fresh(b) && b.Length == OVERHEAD
    ensures ok ==> Took(port.stream, old(port.stream.position),
                        OVERHEAD) && port.stream.position == old(port.stream.position) + OVERHEAD
                   && b[..] == Span(port.stream.bytes, old(port.stream.position), old(port.stream.position) + OVERHEAD)
                   && n == Get(b[..][64..68])
    ensures port.honest ==> (ok <==> Available(port.stream, old(port.stream.position), OVERHEAD))
  {
    b := new byte[OVERHEAD](_ => 0);
    ok := TransferIn(port, b, 0, OVERHEAD);
    assert b[..][64..68] == b[64..68];
    n := Get(b[64..68]);
  }

  method ReadPayload(port: Port, head: array<byte>, n: nat, ghost start: nat) returns (ok: bool, b: array<byte>)
    requires head.Length == OVERHEAD && port.stream.position == start + OVERHEAD && Took(port.stream, start, OVERHEAD)
    requires head[..] == Span(port.stream.bytes, start, start + OVERHEAD) && n <= PAYLOAD_LIMIT
    modifies port`replies, port.stream`position
    ensures fresh(b) && b.Length == OVERHEAD + n
    ensures ok ==> Took(port.stream, start, b.Length) && port.stream.position == start + b.Length
                   && b[..] == Span(port.stream.bytes, start, start + b.Length)
    ensures port.honest ==> (ok <==> Available(port.stream, start + OVERHEAD, n))
  {
    var s := port.stream;
    b := Extended(head, n);
    ghost var room := b[..];
    ok := TransferIn(port, b, OVERHEAD, n);
    if ok {
      SpanOn(s.bytes, start, start + OVERHEAD, s.position);
      assert room[..OVERHEAD] == head[..];
      assert room[OVERHEAD + n..] == [];
      assert b[..] == head[..] + Span(s.bytes, start + OVERHEAD, s.position);
    }
  }

  /** One more byte is asked for, and none may come. */
  method AtEnd(port: Port) returns (end: bool)
    modifies port`replies, port.stream`position
    ensures port.honest ==> (end <==> port.stream.failed || old(port.stream.position) >= |port.stream.bytes|)
  {
    var extra := new byte[1](_ => 0);
    var code, count := port.Read(extra, 0, 1);
    end := count == 0 && code != OtherResult;
  }

  /** What is left of the stream is one whole envelope. */
  ghost predicate EnvelopeAt(s: Stream, from: nat)
    reads s
  {
    !s.failed && from <= |s.bytes| && Enveloped(s.bytes[from..])
  }

  /** The announced length decides whether what is left is one envelope. */
  lemma EnvelopeIs(bytes: seq<byte>, start: nat, head: seq<byte>, n: nat)
    requires start + OVERHEAD <= |bytes| && head == Span(bytes, start, start + OVERHEAD) && n == Get(head[64..68])
    ensures Enveloped(bytes[start..]) <==> n <= PAYLOAD_LIMIT && |bytes| == start + OVERHEAD + n
    ensures |bytes| == start + OVERHEAD + n ==> Span(bytes, start, start + OVERHEAD + n) == bytes[start..]
  {
    SliceOfSlice(bytes, start, |bytes|, 64, 68);
    SliceOfSlice(bytes, start, start + OVERHEAD, 64, 68);
    assert bytes[start..][64..68] == head[64..68];
  }

  method Extended(b: array<byte>, n: nat) returns (r: array<byte>)
    ensures fresh(r) && r.Length == b.Length + n && r[..b.Length] == b[..]
  {
    r := new byte[b.Length + n](i requires 0 <= i < b.Length + n reads b => if i < b.Length then b[i] else 0);
  }
}

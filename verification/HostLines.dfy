/**
 Line framing with sender attribution (bridge-manager/runtime/ownership.py,
 `HostWriterLines`). Chunks arrive with the descriptor of whoever wrote them; a
 protocol line is passed on with its writer only when one sender wrote all of it.
 */
module HostLines {
  import opened Bytes

  const NEWLINE: byte := 10
  const LINE_LIMIT := 65536
  /** `{"event":` */
  const PROTOCOL: seq<byte> := [123, 34, 101, 118, 101, 110, 116, 34, 58]

  /** Writers are told apart by the number of the receive that delivered them. */
  datatype Judged = Emitted(line: seq<byte>, writer: Option<nat>) | CrossSender
  datatype Refusal = TooLong | MixedSenders | EmitRaised | ProbeRaised | Incomplete

  /** The index of the first newline, or the length. */
  function Break(b: seq<byte>): (k: nat)
    ensures k <= |b|
    ensures k < |b| ==> b[k] == NEWLINE
  {
    if b == [] || b[0] == NEWLINE then 0 else 1 + Break(b[1..])
  }

  lemma {:induction false} BreakIsFirst(b: seq<byte>)
    ensures NEWLINE !in b[..Break(b)]
  {
    if b != [] && b[0] != NEWLINE {
      BreakIsFirst(b[1..]);
      assert b[..Break(b)] == [b[0]] + b[1..][..Break(b[1..])];
    }
  }

  lemma {:induction false} BreakConcat(a: seq<byte>, b: seq<byte>)
    requires Break(a) == |a|
    ensures Break(a + b) == |a| + Break(b)
  {
    if a == [] {
      assert a + b == b;
    } else {
      BreakConcat(a[1..], b);
      assert (a + b)[1..] == a[1..] + b;
    }
  }

  // ------------------------------------------- what the chunks amount to

  /** A finished line: its bytes, the chunk of its first byte and the chunk of its newline. */
  datatype Line = Line(bytes: seq<byte>, first: nat, last: nat)

  /** Bytes cut at their newlines: the finished lines, then what follows the last one
      with the chunk of each of its bytes. */
  datatype Framed = Framed(lines: seq<Line>, rest: seq<byte>, tags: seq<nat>)

  /** The framing of bytes that came in the chunks named by `tags`. */
  ghost function Frame(b: seq<byte>, tags: seq<nat>): (f: Framed)
    requires |b| == |tags|
    ensures |f.rest| == |f.tags|
    decreases |b|
  {
    var k := Break(b);
    if k == |b| then Framed([], b, tags)
    else Onto(Line(b[..k], tags[0], tags[k]), Frame(b[k + 1..], tags[k + 1..]))
  }

  ghost function Onto(l: Line, f: Framed): Framed {
    Framed([l] + f.lines, f.rest, f.tags)
  }

  function Marks(n: nat, chunk: nat): (m: seq<nat>)
    ensures |m| == n && forall i :: 0 <= i < n ==> m[i] == chunk
  {
    seq(n, _ => chunk)
  }

  ghost predicate Below(tags: seq<nat>, limit: nat) {
    forall i :: 0 <= i < |tags| ==> tags[i] < limit
  }

  ghost predicate Ordered(tags: seq<nat>) {
    forall i, j :: 0 <= i < j < |tags| ==> tags[i] <= tags[j]
  }

  lemma {:induction false} RestBelow(b: seq<byte>, tags: seq<nat>, limit: nat)
    requires |b| == |tags| && Below(tags, limit)
    ensures Below(Frame(b, tags).tags, limit) && Break(Frame(b, tags).rest) == |Frame(b, tags).rest|
    decreases |b|
  {
    if Break(b) < |b| {
      RestBelow(b[Break(b) + 1..], tags[Break(b) + 1..], limit);
    }
  }

  /** Everything fed so far: the bytes, the chunk each byte came in, and for each chunk
      its writer and whether it was judged the sender of what was then pending. */
  datatype History = History(text: seq<byte>, tags: seq<nat>, who: seq<nat>, same: seq<bool>) {
    ghost predicate Valid() {
      |tags| == |text| && |who| == |same| && Below(tags, |who|) && Ordered(tags)
    }

    ghost function Add(data: seq<byte>, writer: nat, judgedSame: bool): (h: History)
      requires Valid()
      ensures h.Valid()
    {
      History(text + data, tags + Marks(|data|, |who|), who + [writer], same + [judgedSame])
    }

    /** Every chunk after `first`, up to `last`, was judged to come from the same sender. */
    ghost predicate OneSender(first: nat, last: int) {
      forall c :: first < c <= last && c < |same| ==> same[c]
    }

    ghost function Judge(l: Line): Judged {
      if !(PROTOCOL <= l.bytes) then Emitted(l.bytes, None)
      else if OneSender(l.first, l.last) && l.first < |who| then Emitted(l.bytes, Some(who[l.first]))
      else CrossSender
    }

    /** All finished lines, as the history judges them. */
    ghost function Judged(): seq<Judged>
      requires Valid()
    {
      JudgeAll(this, Frame(text, tags).lines)
    }
  }

  ghost function JudgeAll(h: History, ls: seq<Line>): (js: seq<Judged>)
    ensures |js| == |ls|
  {
    if ls == [] then [] else [h.Judge(ls[0])] + JudgeAll(h, ls[1..])
  }

  const EMPTY := History([], [], [], [])

  ghost predicate Clean(js: seq<Judged>) {
    forall i :: 0 <= i < |js| ==> js[i].Emitted? && |js[i].line| <= LINE_LIMIT
  }

  /** Why these framed bytes, of which `b` is all, cannot be passed on. */
  ghost predicate Blocked(reason: Refusal, h: History, b: seq<byte>, f: Framed) {
    match reason
    case TooLong => Break(b) > LINE_LIMIT
    case MixedSenders => Break(b) <= LINE_LIMIT && f.lines != [] && h.Judge(f.lines[0]) == CrossSender
    case EmitRaised => Break(b) <= LINE_LIMIT && f.lines != [] && h.Judge(f.lines[0]).Emitted?
    case _ => false
  }

  /** Inside a feed, with chunk `n` as the newest: the bytes still to be framed, of which
      the first `kept` came before this feed, with the writer and the mark held for them. */
  ghost predicate Framing(h: History, n: nat, b: seq<byte>, tags: seq<nat>, kept: nat, held: nat, mixed: bool) {
    && |tags| == |b| && |h.who| == |h.same| == n + 1 && kept <= Break(b)
    && Below(tags, n + 1) && (forall i :: kept <= i < |tags| ==> tags[i] == n)
    && held == (if b == [] then h.who[n] else h.who[tags[0]])
    && mixed == (b != [] && !h.OneSender(tags[0], n))
  }

  /** Between feeds: what is held is the unfinished last line, its first writer, and
      whether anyone else has added to it; all finished lines could be passed on. */
  ghost predicate Rests(h: History, pending: seq<byte>, held: Option<nat>, mixed: bool) {
    && h.Valid() && |pending| <= LINE_LIMIT && Clean(h.Judged())
    && Holding(h, Frame(h.text, h.tags), pending, held, mixed)
  }

  ghost predicate Holding(h: History, f: Framed, pending: seq<byte>, held: Option<nat>, mixed: bool) {
    && pending == f.rest && |f.tags| == |f.rest|
    && (if pending == [] then held == None && !mixed
        else f.tags[0] < |h.who| && held == Some(h.who[f.tags[0]]) && mixed == !h.OneSender(f.tags[0], |h.who| - 1))
  }

  // ------------------------------------------------------ the loop's meaning

  /** One turn of the loop: the next line is judged from `held` and `mixed` alone. */
  lemma NextLine(h: History, n: nat, b: seq<byte>, tags: seq<nat>, k: nat, kept: nat, held: nat, mixed: bool)
    returns (judged: Judged, next: Framed)
    requires Framing(h, n, b, tags, kept, held, mixed) && k == Break(b) < |b|
    ensures && next == Frame(b[k + 1..], tags[k + 1..])
            && Framing(h, n, b[k + 1..], tags[k + 1..], 0, h.who[n], false)
            && judged == (if !(PROTOCOL <= b[..k]) then Emitted(b[..k], None)
                          else if mixed then CrossSender else Emitted(b[..k], Some(held)))
    ensures Overlong(b[k + 1..]) ==> Overlong(b)
    ensures var f := Frame(b, tags);
            && f.lines != [] && h.Judge(f.lines[0]) == judged && f.rest == next.rest && f.tags == next.tags
            && JudgeAll(h, f.lines) == [judged] + JudgeAll(h, next.lines)
  {
    next := Frame(b[k + 1..], tags[k + 1..]);
    var line := Line(b[..k], tags[0], n);
    assert Frame(b, tags) == Onto(line, next);
    judged := h.Judge(line);
    JudgeOnto(h, line, next);
    Dropped(h, n, b, tags, kept, held, mixed);
  }

  lemma JudgeOnto(h: History, l: Line, f: Framed)
    ensures JudgeAll(h, Onto(l, f).lines) == [h.Judge(l)] + JudgeAll(h, f.lines)
  {
    assert ([l] + f.lines)[1..] == f.lines;
  }

  /** What follows a finished line is all of the newest chunk. */
  lemma Dropped(h: History, n: nat, b: seq<byte>, tags: seq<nat>, kept: nat, held: nat, mixed: bool)
    requires Framing(h, n, b, tags, kept, held, mixed) && Break(b) < |b|
    ensures Framing(h, n, b[Break(b) + 1..], tags[Break(b) + 1..], 0, h.who[n], false)
  {
    AllNewest(tags, kept, Break(b) + 1, n);
  }

  lemma AllNewest(tags: seq<nat>, kept: nat, k: nat, n: nat)
    requires kept <= k <= |tags| && forall i :: kept <= i < |tags| ==> tags[i] == n
    ensures Below(tags[k..], n + 1) && forall i :: 0 <= i < |tags[k..]| ==> tags[k..][i] == n
  {
  }

  lemma {:induction false} JudgeAllConcat(h: History, a: seq<Line>, b: seq<Line>)
    ensures JudgeAll(h, a + b) == JudgeAll(h, a) + JudgeAll(h, b)
  {
    if a == [] {
      assert a + b == b;
    } else {
      JudgeAllConcat(h, a[1..], b);
      assert (a + b)[1..] == a[1..] + b;
    }
  }

  /** Framing can be resumed: only the unfinished rest matters to what comes later. */
  lemma {:induction false} FrameConcat(a: seq<byte>, ta: seq<nat>, b: seq<byte>, tb: seq<nat>)
    requires |a| == |ta| && |b| == |tb|
    ensures var f, g := Frame(a, ta), Frame(Frame(a, ta).rest + b, Frame(a, ta).tags + tb);
            Frame(a + b, ta + tb) == Framed(f.lines + g.lines, g.rest, g.tags)
    decreases |a|
  {
    var k := Break(a);
    if k < |a| {
      var f := Frame(a[k + 1..], ta[k + 1..]);
      var line := Line(a[..k], ta[0], ta[k]);
      assert Frame(a, ta) == Onto(line, f);
      BreakWithin(a, b);
      Cut(a, b, k);
      Cut(ta, tb, k);
      assert Frame(a + b, ta + tb) == Onto(line, Frame(a[k + 1..] + b, ta[k + 1..] + tb));
      FrameConcat(a[k + 1..], ta[k + 1..], b, tb);
      OntoJoin(line, f.lines, Frame(f.rest + b, f.tags + tb).lines);
    }
  }

  lemma OntoJoin(l: Line, a: seq<Line>, b: seq<Line>)
    ensures [l] + (a + b) == ([l] + a) + b
  {
  }

  lemma Cut<T>(a: seq<T>, b: seq<T>, k: nat)
    requires k < |a|
    ensures (a + b)[k + 1..] == a[k + 1..] + b && (a + b)[..k] == a[..k] && (a + b)[k] == a[k] && (a + b)[0] == a[0]
  {
  }

  /** No byte is lost: the finished lines with their newlines, then the rest, are the input. */
  lemma {:induction false} Conserved(b: seq<byte>, tags: seq<nat>)
    requires |b| == |tags|
    ensures Joined(Frame(b, tags).lines) + Frame(b, tags).rest == b
    decreases |b|
  {
    var k := Break(b);
    if k < |b| {
      var f := Frame(b[k + 1..], tags[k + 1..]);
      var line := Line(b[..k], tags[0], tags[k]);
      assert Frame(b, tags) == Onto(line, f);
      Conserved(b[k + 1..], tags[k + 1..]);
      JoinedOnto(line, f.lines, f.rest);
      Around(b, k);
    }
  }

  lemma Around<T>(b: seq<T>, k: nat)
    requires k < |b|
    ensures b == b[..k] + [b[k]] + b[k + 1..]
  {
  }

  lemma JoinedOnto(l: Line, ls: seq<Line>, rest: seq<byte>)
    ensures Joined([l] + ls) + rest == l.bytes + [NEWLINE] + (Joined(ls) + rest)
  {
    assert ([l] + ls)[1..] == ls;
  }

  ghost function Joined(ls: seq<Line>): seq<byte> {
    if ls == [] then [] else ls[0].bytes + [NEWLINE] + Joined(ls[1..])
  }

  lemma {:induction false} BreakWithin(a: seq<byte>, b: seq<byte>)
    requires Break(a) < |a|
    ensures Break(a + b) == Break(a)
  {
    assert (a + b)[0] == a[0];
    if a[0] != NEWLINE {
      BreakWithin(a[1..], b);
      assert (a + b)[1..] == a[1..] + b;
    }
  }

  /** A later chunk does not change how earlier lines are judged. */
  lemma {:induction false} JudgeStable(h: History, data: seq<byte>, writer: nat, same: bool, ls: seq<Line>)
    requires h.Valid() && forall i :: 0 <= i < |ls| ==> ls[i].first < |h.who| && ls[i].last < |h.who|
    ensures JudgeAll(h.Add(data, writer, same), ls) == JudgeAll(h, ls)
  {
    if ls != [] {
      JudgeStable(h, data, writer, same, ls[1..]);
      assert h.Add(data, writer, same).OneSender(ls[0].first, ls[0].last) == h.OneSender(ls[0].first, ls[0].last) by {
        assert forall c :: 0 <= c < |h.same| ==> h.Add(data, writer, same).same[c] == h.same[c];
      }
    }
  }

  lemma {:induction false} LinesBelow(b: seq<byte>, tags: seq<nat>, limit: nat)
    requires |b| == |tags| && Below(tags, limit)
    ensures var ls := Frame(b, tags).lines; forall i :: 0 <= i < |ls| ==> ls[i].first < limit && ls[i].last < limit
    decreases |b|
  {
    var k := Break(b);
    if k < |b| {
      LinesBelow(b[k + 1..], tags[k + 1..], limit);
      assert Frame(b, tags) == Onto(Line(b[..k], tags[0], tags[k]), Frame(b[k + 1..], tags[k + 1..]));
    }
  }

  /** A new chunk opens a feed on what was pending, and leaves earlier judgements alone. */
  lemma Open(h: History, pending: seq<byte>, held: Option<nat>, mixed: bool, data: seq<byte>, passed: nat, same: bool)
    returns (tags: seq<nat>)
    requires Rests(h, pending, held, mixed) && (held == None ==> same)
    ensures |tags| == |pending + data|
    ensures Framing(h.Add(data, passed, same), |h.who|, pending + data, tags, |pending|,
                    if held.Some? then held.value else passed, mixed || !same)
    ensures var h', f := h.Add(data, passed, same), Frame(pending + data, tags);
            && h'.Judged() == h.Judged() + JudgeAll(h', f.lines)
            && Frame(h'.text, h'.tags).rest == f.rest && Frame(h'.text, h'.tags).tags == f.tags
  {
    var h', more, f := h.Add(data, passed, same), Marks(|data|, |h.who|), Frame(h.text, h.tags);
    tags := f.tags + more;
    FrameConcat(h.text, h.tags, data, more);
    JudgeAllConcat(h', f.lines, Frame(pending + data, tags).lines);
    LinesBelow(h.text, h.tags, |h.who|);
    JudgeStable(h, data, passed, same, f.lines);
    OpenFraming(h, f, pending, held, mixed, data, passed, same);
  }

  lemma OpenFraming(h: History, f: Framed, pending: seq<byte>, held: Option<nat>, mixed: bool,
                    data: seq<byte>, passed: nat, same: bool)
    requires h.Valid() && f == Frame(h.text, h.tags) && Holding(h, f, pending, held, mixed) && (held == None ==> same)
    ensures Framing(h.Add(data, passed, same), |h.who|, pending + data, f.tags + Marks(|data|, |h.who|), |pending|,
                    if held.Some? then held.value else passed, mixed || !same)
  {
    RestBelow(h.text, h.tags, |h.who|);
    BreakConcat(pending, data);
    if pending != [] {
      OneMore(h, data, passed, same, f.tags[0]);
    }
  }

  lemma OneMore(h: History, data: seq<byte>, passed: nat, same: bool, first: nat)
    requires h.Valid() && first < |h.who|
    ensures h.Add(data, passed, same).OneSender(first, |h.who|) == (h.OneSender(first, |h.who| - 1) && same)
  {
    var h' := h.Add(data, passed, same);
    assert h'.same[|h.who|] == same;
    assert forall c :: 0 <= c < |h.who| ==> h'.same[c] == h.same[c];
  }

  // ---------------------------------------------------------- what it means

  /** The line stands in the input, right before its newline, in the chunks it names. */
  ghost predicate LiesAt(b: seq<byte>, tags: seq<nat>, line: Line, at: nat) {
    var end := at + |line.bytes|;
    && end < |b| == |tags| && b[at..end] == line.bytes && b[end] == NEWLINE
    && line.first == tags[at] && line.last == tags[end]
  }

  lemma {:induction false} LineLiesAt(b: seq<byte>, tags: seq<nat>, f: Framed, line: Line, i: nat) returns (at: nat)
    requires |b| == |tags| && f == Frame(b, tags) && i < |f.lines| && line == f.lines[i]
    ensures LiesAt(b, tags, line, at)
    decreases |b|
  {
    var k := Break(b);
    var first, rest := Line(b[..k], tags[0], tags[k]), Frame(b[k + 1..], tags[k + 1..]);
    assert f == Onto(first, rest);
    if i == 0 {
      at := FirstLies(b, tags, k, first);
    } else {
      assert line == rest.lines[i - 1];
      var within := LineLiesAt(b[k + 1..], tags[k + 1..], rest, line, i - 1);
      at := Deeper(b, tags, k + 1, line, within);
    }
  }

  lemma FirstLies(b: seq<byte>, tags: seq<nat>, k: nat, line: Line) returns (at: nat)
    requires k < |b| == |tags| && b[k] == NEWLINE && line == Line(b[..k], tags[0], tags[k])
    ensures LiesAt(b, tags, line, at)
  {
    at := 0;
  }

  lemma Deeper(b: seq<byte>, tags: seq<nat>, k: nat, line: Line, at: nat) returns (there: nat)
    requires |b| == |tags| && k <= |b| && LiesAt(b[k..], tags[k..], line, at)
    ensures LiesAt(b, tags, line, there)
  {
    there := k + at;
    Inside(b, k, at, |line.bytes|);
  }

  lemma Inside<T>(b: seq<T>, k: nat, at: nat, n: nat)
    requires k + at + n <= |b|
    ensures b[k..][at..at + n] == b[k + at..k + at + n]
  {
  }

  /** A line that goes out with a writer came, every byte of it and its newline, in the
      writer's own chunk or in one judged to be from the same sender. */
  lemma AttributedBytes(h: History, i: nat) returns (at: nat)
    requires h.Valid() && i < |Frame(h.text, h.tags).lines|
    ensures var line := Frame(h.text, h.tags).lines[i]; var end := at + |line.bytes|;
            && LiesAt(h.text, h.tags, line, at)
            && (h.Judge(line).Emitted? && h.Judge(line).writer.Some? ==>
                  && h.Judge(line).writer.value == h.who[h.tags[at]]
                  && forall j :: at <= j <= end ==> h.tags[j] == h.tags[at] || h.same[h.tags[j]])
  {
    var f := Frame(h.text, h.tags);
    var line := f.lines[i];
    at := LineLiesAt(h.text, h.tags, f, line, i);
    var end := at + |line.bytes|;
    forall j | at <= j <= end && h.Judge(line).Emitted? && h.Judge(line).writer.Some?
      ensures h.tags[j] == h.tags[at] || h.same[h.tags[j]]
    {
      assert h.tags[at] <= h.tags[j] <= h.tags[end];
    }
  }

  /** Some line, finished or not, is over the limit. */
  ghost predicate Overlong(b: seq<byte>)
    decreases |b|
  {
    Break(b) > LINE_LIMIT || (Break(b) < |b| && Overlong(b[Break(b) + 1..]))
  }

  /** Length is a matter of the text alone: text all of which was accepted, in whatever
      chunks, has no long line. (Text refused for length has one: `HostWriterLines.Feed`.) */
  lemma {:induction false} LengthIgnoresChunks(h: History, b: seq<byte>, tags: seq<nat>)
    requires |b| == |tags|
    requires Clean(JudgeAll(h, Frame(b, tags).lines)) && |Frame(b, tags).rest| <= LINE_LIMIT
    ensures !Overlong(b)
    decreases |b|
  {
    var k := Break(b);
    if k < |b| {
      var f := Frame(b[k + 1..], tags[k + 1..]);
      var line := Line(b[..k], tags[0], tags[k]);
      assert Frame(b, tags) == Onto(line, f);
      JudgeOnto(h, line, f);
      CleanParts(h.Judge(line), JudgeAll(h, f.lines));
      LengthIgnoresChunks(h, b[k + 1..], tags[k + 1..]);
    }
  }

  lemma CleanParts(j: Judged, js: seq<Judged>)
    requires Clean([j] + js)
    ensures j.Emitted? && |j.line| <= LINE_LIMIT && Clean(js)
  {
    assert ([j] + js)[0] == j;
    assert forall i :: 0 <= i < |js| ==> js[i] == ([j] + js)[i + 1];
  }

  lemma {:induction false} OverlongAfter(a: seq<byte>, ta: seq<nat>, b: seq<byte>)
    requires |a| == |ta| && Overlong(Frame(a, ta).rest + b)
    ensures Overlong(a + b)
    decreases |a|
  {
    var k := Break(a);
    if k < |a| {
      BreakWithin(a, b);
      Cut(a, b, k);
      OverlongAfter(a[k + 1..], ta[k + 1..], b);
    }
  }

  lemma {:induction false} OverlongStays(a: seq<byte>, b: seq<byte>)
    requires Overlong(a)
    ensures Overlong(a + b)
    decreases |a|
  {
    if Break(a) < |a| {
      BreakWithin(a, b);
      Cut(a, b, Break(a));
      if Break(a) <= LINE_LIMIT {
        OverlongStays(a[Break(a) + 1..], b);
      }
    } else {
      BreakConcat(a, b);
    }
  }

  // ------------------------------------------------------------ the reader

  /** A received pidfd with its credentials and receive number; closing is idempotent. */
  class Writer {
    const number: nat
    const pid: int
    const uid: int
    var open: bool

    constructor (number: nat, pid: int, uid: int)
      ensures open && this.number == number && this.pid == pid && this.uid == uid
    {
      this.number, this.pid, this.uid, open := number, pid, uid, true;
    }

    method Close()
      modifies this
      ensures !open
    {
      open := false;
    }
  }

  /** Liveness of both handles as the kernel answers at the moment of asking. */
  datatype Probe = BothAlive | SomeoneDead | ProbeRaises

  predicate SameSender(held: Writer, writer: Writer, probe: Probe) {
    held.pid == writer.pid && held.uid == writer.uid && probe == BothAlive
  }

  function Number(writer: Writer?): Option<nat> {
    if writer == null then None else Some(writer.number)
  }

  datatype Fed = Accepted | Refused(reason: Refusal)

  /** The checks on a finished line, in order; the last is `emit` itself. */
  function Gate(line: seq<byte>, mixed: bool, emitRaises: bool): Fed {
    if |line| > LINE_LIMIT then Refused(TooLong)
    else if PROTOCOL <= line && mixed then Refused(MixedSenders)
    else if emitRaises then Refused(EmitRaised)
    else Accepted
  }

  lemma GateBlocks(h: History, b: seq<byte>, f: Framed, k: nat, judged: Judged, mixed: bool, emitRaises: bool)
    requires k == Break(b) < |b| && f.lines != [] && h.Judge(f.lines[0]) == judged
    requires judged == CrossSender <==> PROTOCOL <= b[..k] && mixed
    ensures var r := Gate(b[..k], mixed, emitRaises);
            r.Refused? ==> r != Refused(ProbeRaised) && Blocked(r.reason, h, b, f)
    ensures Gate(b[..k], mixed, emitRaises) == Refused(TooLong) ==> Overlong(b)
  {
  }

  /** The loop of `feed` on the fields' values: `held` is the writer of the pending line,
      which becomes `passed` as soon as one line is finished. */
  method PassLines(pending0: seq<byte>, held0: nat, mixed0: bool, passed: nat, patience: nat,
                   ghost h: History, ghost n: nat, ghost tags0: seq<nat>, ghost kept: nat)
    returns (r: Fed, pending: seq<byte>, moved: bool, mixed: bool, out: seq<Judged>, ghost tags: seq<nat>)
    requires Framing(h, n, pending0, tags0, kept, held0, mixed0) && h.who[n] == passed
    ensures |tags| == |pending| && Clean(out) && r != Refused(ProbeRaised)
    ensures |out| <= patience && (r == Refused(EmitRaised) ==> |out| == patience)
    ensures var f, g := Frame(pending0, tags0), Frame(pending, tags);
            && JudgeAll(h, f.lines) == out + JudgeAll(h, g.lines) && f.rest == g.rest && f.tags == g.tags
            && (r.Refused? ==> Blocked(r.reason, h, pending, g))
    ensures r.Accepted? ==>
              && Break(pending) == |pending| <= LINE_LIMIT
              && Framing(h, n, pending, tags, if moved then 0 else kept, if moved then passed else held0, mixed)
    ensures !moved ==> pending == pending0
    ensures r == Refused(TooLong) ==> Overlong(pending0)
  {
    r, pending, moved, mixed, out := Accepted, pending0, false, mixed0, [];
    tags := tags0;
    ghost var whole, f := Frame(pending0, tags0), Frame(pending0, tags0);
    var held := held0;
    var k := Break(pending);
    while k < |pending| && r.Accepted?
      invariant Passing(h, n, pending, tags, if moved then 0 else kept, held, mixed, out, patience, whole, f)
                && k == Break(pending)
      invariant held == (if moved then passed else held0)
      invariant !moved ==> pending == pending0
      invariant Overlong(pending) ==> Overlong(pending0)
      invariant r.Refused? ==> r != Refused(ProbeRaised) && Blocked(r.reason, h, pending, f)
      invariant r == Refused(EmitRaised) ==> |out| == patience
      invariant r == Refused(TooLong) ==> Overlong(pending)
      decreases |pending|, r.Accepted?
    {
      ghost var judged, next := NextLine(h, n, pending, tags, k, if moved then 0 else kept, held, mixed);
      var line := pending[..k];
      r := Gate(line, mixed, |out| == patience);
      if r.Refused? {
        GateBlocks(h, pending, f, k, judged, mixed, |out| == patience);
      } else {
        var passedOn := Emitted(line, if PROTOCOL <= line then Some(held) else None);
        PassedOn(h, n, pending, tags, k, out, patience, whole, f, passedOn, next);
        pending, held, moved, mixed, out := pending[k + 1..], passed, true, false, out + [passedOn];
        tags, f := tags[k + 1..], next;
        k := Break(pending);
      }
    }
    if r.Accepted? && |pending| > LINE_LIMIT {
      r := Refused(TooLong);
    }
  }

  /** Part way through the loop: what went out and what is still framed are all there is. */
  ghost predicate Passing(h: History, n: nat, pending: seq<byte>, tags: seq<nat>, kept: nat, held: nat, mixed: bool,
                          out: seq<Judged>, patience: nat, whole: Framed, f: Framed) {
    && Framing(h, n, pending, tags, kept, held, mixed) && f == Frame(pending, tags)
    && JudgeAll(h, whole.lines) == out + JudgeAll(h, f.lines) && Clean(out) && |out| <= patience
    && whole.rest == f.rest && whole.tags == f.tags
  }

  lemma PassedOn(h: History, n: nat, pending: seq<byte>, tags: seq<nat>, k: nat, out: seq<Judged>, patience: nat,
                 whole: Framed, f: Framed, judged: Judged, next: Framed)
    requires k < |pending| == |tags| && n < |h.who|
             && Framing(h, n, pending[k + 1..], tags[k + 1..], 0, h.who[n], false)
    requires next == Frame(pending[k + 1..], tags[k + 1..])
             && JudgeAll(h, f.lines) == [judged] + JudgeAll(h, next.lines)
    requires JudgeAll(h, whole.lines) == out + JudgeAll(h, f.lines) && Clean(out) && |out| < patience
    requires whole.rest == f.rest == next.rest && whole.tags == f.tags == next.tags
    requires judged.Emitted? && |judged.line| <= LINE_LIMIT
    ensures Passing(h, n, pending[k + 1..], tags[k + 1..], 0, h.who[n], false, out + [judged], patience, whole, next)
  {
    Shift(out, judged, JudgeAll(h, next.lines));
    CleanOne(out, judged);
  }

  lemma Shift(out: seq<Judged>, j: Judged, rest: seq<Judged>)
    ensures out + ([j] + rest) == out + [j] + rest
  {
  }

  lemma Regroup<T>(a: seq<T>, b: seq<T>, c: seq<T>)
    ensures a + (b + c) == a + b + c
  {
  }

  function HeldAfter(pending: seq<byte>, held: Option<nat>, moved: bool, passed: nat): Option<nat> {
    if pending == [] then None else if moved || held == None then Some(passed) else held
  }

  /** `feed` on the fields' values: which lines go out, what is kept, and why it stops. */
  method Reframe(pending0: seq<byte>, held0: Option<nat>, mixed0: bool, data: seq<byte>, passed: nat, same: bool,
                 patience: nat, ghost h0: History)
    returns (r: Fed, pending: seq<byte>, moved: bool, mixed: bool, out: seq<Judged>,
             ghost h: History, ghost left: Framed)
    requires Rests(h0, pending0, held0, mixed0) && (held0 == None ==> same)
    ensures h == h0.Add(data, passed, same) && Clean(out) && |out| <= patience
            && (r == Refused(EmitRaised) ==> |out| == patience)
    ensures h.Judged() == h0.Judged() + out + JudgeAll(h, left.lines) && left.rest == Frame(h.text, h.tags).rest
    ensures Joined(left.lines) + left.rest == pending
    ensures r.Accepted? ==> left.lines == [] && Rests(h, pending, HeldAfter(pending, held0, moved, passed), mixed)
    ensures r.Refused? ==> Blocked(r.reason, h, pending, left)
    ensures r == Refused(TooLong) ==> Overlong(h.text)
    ensures r != Refused(ProbeRaised) && (!moved ==> pending == pending0 + data)
  {
    h := h0.Add(data, passed, same);
    ghost var tags0 := Open(h0, pending0, held0, mixed0, data, passed, same);
    ghost var tags;
    r, pending, moved, mixed, out, tags :=
      PassLines(pending0 + data, if held0.Some? then held0.value else passed, mixed0 || !same, passed, patience,
                h, |h0.who|, tags0, |pending0|);
    left := Frame(pending, tags);
    Conserved(pending, tags);
    Regroup(h0.Judged(), out, JudgeAll(h, left.lines));
    if r == Refused(TooLong) {
      OverlongAfter(h0.text, h0.tags, data);
    }
    if r.Accepted? {
      assert left == Framed([], pending, tags);
      CleanConcat(h0.Judged(), out);
    }
  }

  lemma CleanOne(a: seq<Judged>, j: Judged)
    requires Clean(a) && j.Emitted? && |j.line| <= LINE_LIMIT
    ensures Clean(a + [j])
  {
  }

  lemma CleanConcat(a: seq<Judged>, b: seq<Judged>)
    requires Clean(a) && Clean(b)
    ensures Clean(a + b)
  {
  }

  class HostWriterLines {
    var pending: seq<byte>
    var writer: Writer?
    var mixed: bool
    ghost var history: History

    ghost predicate Valid()
      reads this, writer
    {
      Rests(history, pending, Number(writer), mixed) && (writer != null ==> writer.open)
    }

    /** Text that was ever refused for its length is accepted in no other chunks, whatever
        follows it and whoever writes it. */
    lemma RefusedInAnyChunks(refused: seq<byte>, more: seq<byte>)
      requires Valid() && Overlong(refused)
      ensures history.text != refused + more
    {
      OverlongStays(refused, more);
      LengthIgnoresChunks(history, history.text, history.tags);
    }

    constructor ()
      ensures Valid() && history == EMPTY && pending == []
    {
      pending, writer, mixed, history := [], null, false, EMPTY;
    }

    method Close()
      modifies this, writer
      ensures Valid() && writer == null && history == EMPTY
      ensures old(writer) != null ==> !old(writer).open
    {
      if writer != null {
        writer.Close();
        writer := null;
      }
      pending, mixed, history := [], false, EMPTY;
    }

    /** The exceptional exit of `feed`: nothing passed in or held stays open. */
    method Abandon(passed: Writer)
      modifies this, writer, passed
      ensures Valid() && history == EMPTY
      ensures writer == null && !passed.open && (old(writer) != null ==> !old(writer).open)
    {
      if passed != writer {
        passed.Close();
      }
      Close();
    }

    /** `feed`, with `emit` raising on the call after `patience` accepted ones. What goes
        out, and what does not, is what the whole history `h` says: on refusal `unsent`
        starts with the first line that was not passed on. */
    method Feed(data: seq<byte>, passed: Writer, probe: Probe, patience: nat)
      returns (r: Fed, out: seq<Judged>, ghost h: History, ghost left: Framed, ghost unsent: seq<byte>)
      requires Valid() && passed.open
      modifies this, writer, passed
      ensures Valid() && Clean(out) && |out| <= patience && (r == Refused(EmitRaised) ==> |out| == patience)
      ensures h == old(history).Add(data, passed.number, old(writer) == null || SameSender(old(writer), passed, probe))
      ensures h.same[|h.same| - 1] <==>
                old(writer) == null
                || (old(writer).pid == passed.pid && old(writer).uid == passed.uid && probe == BothAlive)
      ensures r.Accepted? ==> history == h && (passed == writer || !passed.open)
                              && (old(writer) == null || old(writer) == writer || !old(writer).open)
      ensures r.Refused? ==> history == EMPTY && writer == null && !passed.open
                             && (old(writer) == null || !old(writer).open)
      ensures r == Refused(ProbeRaised) <==> probe == ProbeRaises && old(writer) != null
      ensures r == Refused(ProbeRaised) ==> out == []
      ensures r == Refused(TooLong) ==> Overlong(h.text)
      ensures r != Refused(ProbeRaised) ==>
                && h.Judged() == old(history).Judged() + out + JudgeAll(h, left.lines)
                && left.rest == Frame(h.text, h.tags).rest && Joined(left.lines) + left.rest == unsent
                && (if r.Accepted? then left.lines == [] && unsent == pending else Blocked(r.reason, h, unsent, left))
    {
      var same := writer == null || SameSender(writer, passed, probe);
      if writer != null && probe == ProbeRaises {
        h := history.Add(data, passed.number, same);
        Abandon(passed);
        return Refused(ProbeRaised), [], h, Framed([], [], []), [];
      }
      var held := if writer == null then passed else writer;
      var rest, moved, mixedNow;
      r, rest, moved, mixedNow, out, h, left :=
        Reframe(pending, Number(writer), mixed, data, passed.number, same, patience, history);
      unsent := rest;
      if r.Refused? {
        Abandon(passed);
      } else {
        Settle(rest, mixedNow, held, moved, passed, h);
      }
    }

    /** The tail of an accepted `feed`: one writer is held, for the bytes left, or none. */
    method Settle(rest: seq<byte>, mixedNow: bool, held: Writer, moved: bool, passed: Writer, ghost h: History)
      requires writer == null || held == writer
      requires writer == null ==> held == passed
      requires rest == [] && !moved ==> held == passed
      requires Rests(h, rest, HeldAfter(rest, Number(writer), moved, passed.number), mixedNow)
      requires held.open && passed.open
      modifies this, held, passed
      ensures Valid() && pending == rest && history == h
      ensures writer == if rest == [] then null else if moved then passed else held
      ensures passed == writer || !passed.open
      ensures held == writer || !held.open
    {
      if moved && held != passed {
        held.Close();
      }
      writer := if moved then passed else held;
      pending, mixed, history := rest, mixedNow, h;
      if pending == [] {
        writer.Close();
        writer := null;
      } else if writer != passed {
        passed.Close();
      }
    }

    /** `finish` at end of stream: an unfinished line is never passed on as protocol. */
    method Finish(emitRaises: bool) returns (r: Fed, out: seq<Judged>)
      requires Valid()
      modifies this, writer
      ensures Valid() && writer == null && history == EMPTY && (old(writer) != null ==> !old(writer).open)
      ensures r == Refused(Incomplete) <==> PROTOCOL <= old(pending)
      ensures r == Refused(EmitRaised) <==> !(PROTOCOL <= old(pending)) && old(pending) != [] && emitRaises
      ensures out == if r.Refused? || old(pending) == [] then [] else [Emitted(old(pending), None)]
      ensures r.Refused? ==> r.reason.Incomplete? || r.reason.EmitRaised?
    {
      r, out := Accepted, [];
      if pending != [] {
        if PROTOCOL <= pending {
          r := Refused(Incomplete);
        } else if emitRaises {
          r := Refused(EmitRaised);
        } else {
          out := [Emitted(pending, None)];
        }
      }
      Close();
    }
  }
}

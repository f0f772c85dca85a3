/**
 Interval attribution of one SDK call from a retained request and the kernel's
 switch records (tools/audio_recovery_timing.py).

 `Attribute` is the source's procedure. `WellFormed`, `Share` and the `True...`
 definitions below are the reference it is compared with: a real-valued clock
 offset, real Windows times, and off-CPU time read off neighbouring records.
 */
module Attribution {
  datatype Result<+T> = Ok(value: T) | Refused(reason: string)
  datatype Direction = Out | In | Other

  datatype Switch = Switch(stamp: int, direction: Direction, preempted: bool)
  datatype Span = Span(begin: int, end: int, preempted: bool)
  datatype Window = Window(begin: int, end: int)

  datatype Witness = Witness(
    linux: seq<int>,
    windows: seq<int>,
    switches: seq<Switch>,
    lostEvents: bool,
    uncertainty: int,
    gap: int)

  datatype Report = Report(
    offset: Window,
    possible: Window,
    common: Window,
    offCpuLower: int,
    preemptionLower: int,
    preemptionUpper: int,
    across: seq<Span>)

  const NANOS := 1_000_000_000

  // ---------------------------------------------------------------- clocks

  predicate Sorted(s: seq<int>) {
    forall i :: 0 < i < |s| ==> s[i - 1] <= s[i]
  }

  predicate Shaped(w: Witness) {
    && |w.linux| == 7 && |w.windows| == 15 && w.windows[14] > 0 && w.uncertainty >= 0
    && !w.lostEvents && |w.switches| >= 2
  }

  predicate Ordered(w: Witness)
    requires Shaped(w)
  {
    Sorted(w.linux) && Sorted(w.windows[..8])
  }

  function FloorNs(w: Witness, i: nat): int
    requires Shaped(w) && i < 15
  {
    w.windows[i] * NANOS / w.windows[14]
  }

  function CeilNs(w: Witness, i: nat): int
    requires Shaped(w) && i < 15
  {
    (w.windows[i] * NANOS + w.windows[14] - 1) / w.windows[14]
  }

  function Low(w: Witness): int
    requires Shaped(w)
  {
    w.linux[2] - CeilNs(w, 1) - w.uncertainty
  }

  function High(w: Witness): int
    requires Shaped(w)
  {
    w.linux[4] - FloorNs(w, 7) + w.uncertainty
  }

  function Possible(w: Witness): Window
    requires Shaped(w)
  {
    Window(FloorNs(w, 3) + Low(w), CeilNs(w, 4) + High(w))
  }

  function Common(w: Witness): Window
    requires Shaped(w)
  {
    Window(CeilNs(w, 3) + High(w), FloorNs(w, 4) + Low(w))
  }

  /** The instant of a Windows tick in nanoseconds, without rounding. */
  ghost function Instant(w: Witness, i: nat): real
    requires Shaped(w) && i < 15
  {
    (w.windows[i] * NANOS) as real / w.windows[14] as real
  }

  /** An offset is consistent when it puts publication before receipt and the
      reply before its observation, each Linux stamp being good to `uncertainty`. */
  ghost predicate TrueOffset(w: Witness, offset: real)
    requires Shaped(w)
  {
    && (w.linux[2] - w.uncertainty) as real <= Instant(w, 1) + offset
    && Instant(w, 7) + offset <= (w.linux[4] + w.uncertainty) as real
  }

  lemma Cancel(x: real, y: real, d: real)
    requires d > 0.0 && x * d <= y * d
    ensures x <= y
  {
    assert x > y ==> (x - y) * d > 0.0;
  }

  /** A quotient lies between the floor and the ceiling computed from it. */
  lemma Rounding(n: int, d: int)
    requires d > 0
    ensures (n / d) as real <= n as real / d as real <= ((n + d - 1) / d) as real
  {
    var q, c, x := n / d, (n + d - 1) / d, n as real / d as real;
    assert q * d <= n <= c * d;
    assert (q * d) as real == q as real * d as real;
    assert (c * d) as real == c as real * d as real;
    assert x * d as real == n as real;
    Cancel(q as real, x, d as real);
    Cancel(x, c as real, d as real);
  }

  /** Neither is a whole unit away. */
  lemma RoundingIsClose(n: int, d: int)
    requires d > 0
    ensures n as real / d as real < (n / d) as real + 1.0 && ((n + d - 1) / d) as real < n as real / d as real + 1.0
  {
    var q, c, x := n / d, (n + d - 1) / d, n as real / d as real;
    assert x * d as real == n as real;
    Above(q, n, d);
    Below(c, n, d);
    CancelStrictly(x, q as real + 1.0, d as real);
    CancelStrictly(c as real - 1.0, x, d as real);
  }

  lemma Above(q: int, n: int, d: int)
    requires d > 0 && q == n / d
    ensures (q as real + 1.0) * d as real > n as real
  {
    assert (q + 1) * d > n;
    assert ((q + 1) * d) as real == (q + 1) as real * d as real;
  }

  lemma Below(c: int, n: int, d: int)
    requires d > 0 && c == (n + d - 1) / d
    ensures (c as real - 1.0) * d as real < n as real
  {
    assert (c - 1) * d < n;
    assert ((c - 1) * d) as real == (c - 1) as real * d as real;
  }

  lemma CancelStrictly(x: real, y: real, d: real)
    requires d > 0.0 && x * d < y * d
    ensures x < y
  {
    assert x >= y ==> (x - y) * d >= 0.0;
  }

  /** The two conversions of a tick bracket its instant, each less than a nanosecond away. */
  lemma InstantRounded(w: Witness, i: nat)
    requires Shaped(w) && i < 15
    ensures FloorNs(w, i) as real <= Instant(w, i) <= CeilNs(w, i) as real
    ensures Instant(w, i) - 1.0 < FloorNs(w, i) as real && CeilNs(w, i) as real < Instant(w, i) + 1.0
  {
    Rounding(w.windows[i] * NANOS, w.windows[14]);
    RoundingIsClose(w.windows[i] * NANOS, w.windows[14]);
  }

  lemma InstantMonotone(w: Witness, i: nat, j: nat)
    requires Shaped(w) && i < 15 && j < 15 && w.windows[i] <= w.windows[j]
    ensures Instant(w, i) <= Instant(w, j)
  {
    var x, y, d := Instant(w, i), Instant(w, j), w.windows[14] as real;
    assert x * d == (w.windows[i] * NANOS) as real && y * d == (w.windows[j] * NANOS) as real;
    Cancel(x, y, d);
  }

  /** Every consistent offset lies between the brackets, and the common window
      is inside the true SDK interval, which is inside the possible window. */
  lemma WindowsBracketTheCall(w: Witness, offset: real)
    requires Shaped(w) && Ordered(w) && TrueOffset(w, offset)
    ensures Low(w) as real <= offset <= High(w) as real
    ensures Possible(w).begin as real <= Instant(w, 3) + offset <= Common(w).begin as real
    ensures Common(w).end as real <= Instant(w, 4) + offset <= Possible(w).end as real
    ensures Instant(w, 3) <= Instant(w, 4)
    ensures Instant(w, 4) - Instant(w, 3) <= (CeilNs(w, 4) - FloorNs(w, 3)) as real
  {
    InstantRounded(w, 1);
    InstantRounded(w, 3);
    InstantRounded(w, 4);
    InstantRounded(w, 7);
    assert w.windows[..8][3] <= w.windows[..8][4];
    InstantMonotone(w, 3, 4);
  }

  /** Nor are the windows wider than they have to be: each end is within the rounding of its
      one tick of where the outermost offsets put it. */
  lemma WindowsAreTight(w: Witness)
    requires Shaped(w)
    ensures Instant(w, 3) + Low(w) as real - 1.0 < Possible(w).begin as real <= Instant(w, 3) + Low(w) as real
    ensures Instant(w, 4) + High(w) as real <= Possible(w).end as real < Instant(w, 4) + High(w) as real + 1.0
    ensures Instant(w, 3) + High(w) as real <= Common(w).begin as real < Instant(w, 3) + High(w) as real + 1.0
    ensures Instant(w, 4) + Low(w) as real - 1.0 < Common(w).end as real <= Instant(w, 4) + Low(w) as real
    ensures (w.linux[2] - w.uncertainty) as real - Instant(w, 1) - 1.0 < Low(w) as real
            <= (w.linux[2] - w.uncertainty) as real - Instant(w, 1)
    ensures (w.linux[4] + w.uncertainty) as real - Instant(w, 7) <= High(w) as real
            < (w.linux[4] + w.uncertainty) as real - Instant(w, 7) + 1.0
  {
    InstantRounded(w, 1);
    InstantRounded(w, 3);
    InstantRounded(w, 4);
    InstantRounded(w, 7);
  }

  // ------------------------------------------------------------- schedules

  /** The switch records the source admits: ordered stamps, known directions, and
      a strict alternation of OUT and IN (a leading IN is allowed). */
  predicate Alternating(events: seq<Switch>) {
    && (forall i :: 0 <= i < |events| ==> !events[i].direction.Other?)
    && (forall i :: 0 < i < |events| ==>
          events[i - 1].stamp <= events[i].stamp && events[i - 1].direction != events[i].direction)
  }

  predicate Covers(w: Witness)
    requires Shaped(w)
  {
    && w.switches[0].stamp <= Possible(w).begin
    && Possible(w).end <= w.switches[|w.switches| - 1].stamp
  }

  /** Exactly the witnesses for which a report is produced. */
  predicate WellFormed(w: Witness) {
    && Shaped(w) && Ordered(w) && Low(w) <= High(w) && Covers(w) && Alternating(w.switches)
  }

  /** Each complete OUT..IN pair among the first `n` records. */
  function SpansOf(events: seq<Switch>, n: nat): (spans: seq<Span>)
    requires n <= |events|
  {
    if n < 2 then []
    else SpansOf(events, n - 1) +
         (if events[n - 2].direction.Out? && events[n - 1].direction.In?
          then [Span(events[n - 2].stamp, events[n - 1].stamp, events[n - 2].preempted)] else [])
  }

  function Min(a: int, b: int): int { if a <= b then a else b }
  function Max(a: int, b: int): int { if a <= b then b else a }

  function OverlapOne(s: Span, w: Window): int {
    Max(0, Min(s.end, w.end) - Max(s.begin, w.begin))
  }

  function Overlap(spans: seq<Span>, w: Window, onlyPreempted: bool): int {
    if spans == [] then 0
    else Overlap(spans[..|spans| - 1], w, onlyPreempted) +
         var last := spans[|spans| - 1];
         if onlyPreempted && !last.preempted then 0 else OverlapOne(last, w)
  }

  predicate Crosses(s: Span, w: Witness)
    requires Shaped(w)
  {
    && s.preempted
    && Common(w).begin <= s.begin < w.gap - w.uncertainty
    && w.gap + w.uncertainty < s.end <= Common(w).end
  }

  function Crossing(spans: seq<Span>, w: Witness): (r: seq<Span>)
    requires Shaped(w)
    ensures forall s :: s in r <==> s in spans && Crosses(s, w)
  {
    if spans == [] then []
    else Crossing(spans[..|spans| - 1], w) +
         (if Crosses(spans[|spans| - 1], w) then [spans[|spans| - 1]] else [])
  }

  function ReportOf(w: Witness): Report
    requires Shaped(w)
  {
    var spans := SpansOf(w.switches, |w.switches|);
    Report(Window(Low(w), High(w)), Possible(w), Common(w),
           Overlap(spans, Common(w), false),
           Overlap(spans, Common(w), true),
           Min(Overlap(spans, Possible(w), true), CeilNs(w, 4) - FloorNs(w, 3)),
           Crossing(spans, w))
  }

  // ------------------------------------------------- the source's procedure

  /** The source's loop over the switch records. */
  method Absences(events: seq<Switch>) returns (r: Result<seq<Span>>)
    ensures r.Ok? <==> Alternating(events)
    ensures r.Ok? ==> r.value == SpansOf(events, |events|)
  {
    var spans: seq<Span> := [];
    var pending: seq<Switch> := [];
    var index := 0;
    while index < |events|
      invariant 0 <= index <= |events|
      invariant forall i :: 0 <= i < index ==> !events[i].direction.Other?
      invariant forall i :: 0 < i < index ==>
          events[i - 1].stamp <= events[i].stamp && events[i - 1].direction != events[i].direction
      invariant spans == SpansOf(events, index)
      invariant pending == if index > 0 && events[index - 1].direction.Out? then [events[index - 1]] else []
    {
      var e := events[index];
      if index > 0 && e.stamp < events[index - 1].stamp {
        return Refused("unordered switches");
      }
      if e.direction.Out? {
        if pending != [] {
          return Refused("missing switch in");
        }
        pending := [e];
      } else if e.direction.In? {
        if pending == [] {
          if index > 0 {
            return Refused("missing switch out");
          }
        } else {
          spans := spans + [Span(pending[0].stamp, e.stamp, pending[0].preempted)];
          pending := [];
        }
      } else {
        return Refused("unknown switch direction");
      }
      index := index + 1;
    }
    return Ok(spans);
  }

  // ------------------------------------------------------------- the truth

  ghost function MinR(a: real, b: real): real { if a <= b then a else b }
  ghost function MaxR(a: real, b: real): real { if a <= b then b else a }

  /** How much of [begin, end] falls inside [from, to]. */
  ghost function Share(begin: real, end: real, from: real, to: real): real {
    MaxR(0.0, MinR(end, to) - MaxR(begin, from))
  }

  /** Off-CPU time of the thread inside [from, to], read off neighbouring records:
      the thread is off the CPU between two records exactly when the earlier is OUT. */
  ghost function TrueBetween(events: seq<Switch>, n: nat, from: real, to: real, onlyPreempted: bool): real
    requires n <= |events|
  {
    if n < 2 then 0.0
    else TrueBetween(events, n - 1, from, to, onlyPreempted) +
         if events[n - 2].direction.Out? && (!onlyPreempted || events[n - 2].preempted)
         then Share(events[n - 2].stamp as real, events[n - 1].stamp as real, from, to) else 0.0
  }

  /** What the records leave open: how long before a leading IN the thread had been
      away and why, and how long after a trailing OUT it stays away. */
  datatype Unrecorded = Unrecorded(awaySince: real, awayPreempted: bool, backAt: real)

  ghost function TrueOffCpu(events: seq<Switch>, u: Unrecorded, from: real, to: real, onlyPreempted: bool): real
    requires |events| >= 2
  {
    var first, last := events[0], events[|events| - 1];
    TrueBetween(events, |events|, from, to, onlyPreempted)
    + (if first.direction.In? && (!onlyPreempted || u.awayPreempted)
       then Share(u.awaySince, first.stamp as real, from, to) else 0.0)
    + (if last.direction.Out? && (!onlyPreempted || last.preempted)
       then Share(last.stamp as real, u.backAt, from, to) else 0.0)
  }

  lemma {:induction false} SumsAgree(events: seq<Switch>, n: nat, w: Window, from: real, to: real, onlyPreempted: bool)
    requires n <= |events| && Alternating(events)
    ensures from <= w.begin as real && w.end as real <= to ==>
              Overlap(SpansOf(events, n), w, onlyPreempted) as real <= TrueBetween(events, n, from, to, onlyPreempted)
    ensures w.begin as real <= from && to <= w.end as real ==>
              TrueBetween(events, n, from, to, onlyPreempted) <= Overlap(SpansOf(events, n), w, onlyPreempted) as real
  {
    if n >= 2 {
      SumsAgree(events, n - 1, w, from, to, onlyPreempted);
      var before := SpansOf(events, n - 1);
      if events[n - 2].direction.Out? {
        assert events[n - 1].direction.In?;
        var s := Span(events[n - 2].stamp, events[n - 1].stamp, events[n - 2].preempted);
        assert (before + [s])[..|before|] == before;
      } else {
        assert SpansOf(events, n) == before;
      }
    }
  }

  /** Off-CPU time inside a window is never more than the window itself, because
      the recorded absences are disjoint. */
  lemma {:induction false} BetweenBounded(events: seq<Switch>, n: nat, from: real, to: real, onlyPreempted: bool)
    requires n <= |events| && Alternating(events) && from <= to
    ensures TrueBetween(events, n, from, to, onlyPreempted)
            <= if n == 0 then 0.0 else MaxR(0.0, MinR(events[n - 1].stamp as real, to) - from)
  {
    if n >= 2 {
      BetweenBounded(events, n - 1, from, to, onlyPreempted);
    }
  }

  /** For every consistent offset and every completion of the schedule, the
      reported bounds contain the true off-CPU and preempted time of the call. */
  lemma ReportIsSound(w: Witness, offset: real, u: Unrecorded)
    requires WellFormed(w) && TrueOffset(w, offset)
    ensures var from, to := Instant(w, 3) + offset, Instant(w, 4) + offset;
            && ReportOf(w).offCpuLower as real <= TrueOffCpu(w.switches, u, from, to, false)
            && ReportOf(w).preemptionLower as real <= TrueOffCpu(w.switches, u, from, to, true)
            && TrueOffCpu(w.switches, u, from, to, true) <= ReportOf(w).preemptionUpper as real
  {
    WindowsBracketTheCall(w, offset);
    var from, to := Instant(w, 3) + offset, Instant(w, 4) + offset;
    var n := |w.switches|;
    SumsAgree(w.switches, n, Common(w), from, to, false);
    SumsAgree(w.switches, n, Common(w), from, to, true);
    SumsAgree(w.switches, n, Possible(w), from, to, true);
    BetweenBounded(w.switches, n, from, to, true);
  }

  /** The report against the records themselves: each bound is the recorded off-CPU time of
      its kind in its window, the upper one no more than the call by its own ticks, and what
      lies across the gap is the one recorded preemption, if any, that does so with the stated
      margins, inside the common window. */
  ghost predicate Measures(w: Witness, r: Report)
    requires Shaped(w)
  {
    var n, c, p := |w.switches|, Common(w), Possible(w);
    && r.offset == Window(Low(w), High(w)) && r.possible == p && r.common == c
    && r.offCpuLower as real == TrueBetween(w.switches, n, c.begin as real, c.end as real, false)
    && r.preemptionLower as real == TrueBetween(w.switches, n, c.begin as real, c.end as real, true)
    && r.preemptionUpper as real
       == MinR(TrueBetween(w.switches, n, p.begin as real, p.end as real, true),
               (CeilNs(w, 4) - FloorNs(w, 3)) as real)
    && |r.across| <= 1 && (forall s :: s in r.across <==> IsAcross(w, s))
  }

  ghost predicate IsAcross(w: Witness, s: Span)
    requires Shaped(w)
  {
    exists i {:trigger w.switches[i]} :: 0 < i < |w.switches| && AcrossAt(w, i, s)
  }

  /** The `i`th record ends a preemption that lies across the gap, and this is it. */
  ghost predicate AcrossAt(w: Witness, i: nat, s: Span)
    requires Shaped(w) && 0 < i < |w.switches|
  {
    var out, back := w.switches[i - 1], w.switches[i];
    && out.direction.Out? && back.direction.In? && out.preempted && s == Span(out.stamp, back.stamp, true)
    && Common(w).begin <= out.stamp && out.stamp < w.gap - w.uncertainty
    && w.gap + w.uncertainty < back.stamp && back.stamp <= Common(w).end
  }

  lemma FormsAgree(w: Witness)
    requires Shaped(w)
    ensures Sorted(w.windows[..8]) <==> forall i :: 0 < i < 8 ==> w.windows[i - 1] <= w.windows[i]
    ensures Alternating(w.switches) <==>
              && (forall i :: 0 < i < |w.switches| ==>
                    && w.switches[i - 1].stamp <= w.switches[i].stamp
                    && (w.switches[i - 1].direction.Out? <==> w.switches[i].direction.In?)
                    && (w.switches[i - 1].direction.In? <==> w.switches[i].direction.Out?))
              && (w.switches[0].direction.Out? || w.switches[0].direction.In?)
  {
    var front := w.windows[..8];
    assert forall i :: 0 <= i < 8 ==> front[i] == w.windows[i];
    if forall i :: 0 < i < |w.switches| ==>
         && (w.switches[i - 1].direction.Out? <==> w.switches[i].direction.In?)
         && (w.switches[i - 1].direction.In? <==> w.switches[i].direction.Out?)
    {
      KnownDirections(w.switches, |w.switches|);
    }
  }

  lemma {:induction false} KnownDirections(events: seq<Switch>, n: nat)
    requires n <= |events|
    requires forall i :: 0 < i < |events| ==>
               && (events[i - 1].direction.Out? <==> events[i].direction.In?)
               && (events[i - 1].direction.In? <==> events[i].direction.Out?)
    ensures n > 0 && !events[0].direction.Other? ==> forall i :: 0 <= i < n ==> !events[i].direction.Other?
  {
    if n > 1 {
      KnownDirections(events, n - 1);
      assert events[n - 2].direction.Out? || events[n - 2].direction.In? ==> !events[n - 1].direction.Other?;
    }
  }

  /** A window's sum over the spans is the recorded time in it. */
  lemma SumIs(events: seq<Switch>, w: Window, onlyPreempted: bool)
    requires Alternating(events)
    ensures Overlap(SpansOf(events, |events|), w, onlyPreempted) as real
            == TrueBetween(events, |events|, w.begin as real, w.end as real, onlyPreempted)
  {
    SumsAgree(events, |events|, w, w.begin as real, w.end as real, onlyPreempted);
  }

  lemma MinIs(a: int, b: int)
    ensures Min(a, b) as real == MinR(a as real, b as real)
  {
  }

  lemma ReportMeasures(w: Witness)
    requires WellFormed(w)
    ensures Measures(w, ReportOf(w))
  {
    var n := |w.switches|;
    SumIs(w.switches, Common(w), false);
    SumIs(w.switches, Common(w), true);
    SumIs(w.switches, Possible(w), true);
    MinIs(Overlap(SpansOf(w.switches, n), Possible(w), true), CeilNs(w, 4) - FloorNs(w, 3));
    AcrossOnce(w, n);
    AcrossExactly(w);
  }

  lemma AcrossExactly(w: Witness)
    requires WellFormed(w)
    ensures forall s :: s in ReportOf(w).across <==> IsAcross(w, s)
  {
    var n, across := |w.switches|, ReportOf(w).across;
    forall s ensures s in across ==> IsAcross(w, s) {
      if s in across {
        SpansAreAbsences(w.switches, n, s);
        var i :| 0 < i < n && w.switches[i - 1].direction.Out? && w.switches[i].direction.In?
                 && s == Span(w.switches[i - 1].stamp, w.switches[i].stamp, w.switches[i - 1].preempted);
        assert AcrossAt(w, i, s);
      }
    }
    forall s, i | 0 < i < n && AcrossAt(w, i, s) ensures s in across {
      SpansComplete(w.switches, n, i);
    }
  }

  /** Absences do not overlap, so no more than one lies across the gap. */
  lemma {:induction false} AcrossOnce(w: Witness, n: nat)
    requires WellFormed(w) && n <= |w.switches|
    ensures |Crossing(SpansOf(w.switches, n), w)| <= 1
    ensures Crossing(SpansOf(w.switches, n), w) != [] ==> n > 0 && w.switches[n - 1].stamp > w.gap + w.uncertainty
  {
    if n >= 2 {
      AcrossOnce(w, n - 1);
      var before := SpansOf(w.switches, n - 1);
      if w.switches[n - 2].direction.Out? {
        assert w.switches[n - 1].direction.In?;
        var s := Span(w.switches[n - 2].stamp, w.switches[n - 1].stamp, w.switches[n - 2].preempted);
        assert SpansOf(w.switches, n) == before + [s] && (before + [s])[..|before|] == before;
      } else {
        assert SpansOf(w.switches, n) == before;
      }
    }
  }

  lemma {:induction false} SpansAreAbsences(events: seq<Switch>, n: nat, s: Span)
    requires n <= |events| && s in SpansOf(events, n)
    ensures exists i :: 0 < i < n && events[i - 1].direction.Out? && events[i].direction.In?
                        && s == Span(events[i - 1].stamp, events[i].stamp, events[i - 1].preempted)
  {
    if n >= 2 && s in SpansOf(events, n - 1) {
      SpansAreAbsences(events, n - 1, s);
    } else {
      assert events[n - 2].direction.Out? && events[n - 1].direction.In?;
    }
  }

  /** Every reported crossing is one recorded preemption, lies inside the true call
      for every consistent offset, and contains the gap wherever it really was. */
  lemma CrossingIsInsideTheCall(w: Witness, offset: real, s: Span, gap: real)
    requires WellFormed(w) && TrueOffset(w, offset) && s in ReportOf(w).across
    requires (w.gap - w.uncertainty) as real <= gap <= (w.gap + w.uncertainty) as real
    ensures Instant(w, 3) + offset <= s.begin as real < gap < s.end as real <= Instant(w, 4) + offset
    ensures exists i :: 0 < i < |w.switches| && w.switches[i - 1].direction.Out? && w.switches[i].direction.In?
                        && w.switches[i - 1].preempted
                        && s.begin == w.switches[i - 1].stamp && s.end == w.switches[i].stamp
  {
    WindowsBracketTheCall(w, offset);
    SpansAreAbsences(w.switches, |w.switches|, s);
  }

  /** And no recorded preemption that meets the stated margins is left out. */
  lemma {:induction false} CrossingIsComplete(w: Witness, i: nat)
    requires WellFormed(w) && 0 < i < |w.switches|
    requires w.switches[i - 1].direction.Out?
    requires Crosses(Span(w.switches[i - 1].stamp, w.switches[i].stamp, w.switches[i - 1].preempted), w)
    ensures Span(w.switches[i - 1].stamp, w.switches[i].stamp, w.switches[i - 1].preempted) in ReportOf(w).across
  {
    SpansComplete(w.switches, |w.switches|, i);
  }

  lemma {:induction false} SpansComplete(events: seq<Switch>, n: nat, i: nat)
    requires n <= |events| && Alternating(events) && 0 < i < n && events[i - 1].direction.Out?
    ensures Span(events[i - 1].stamp, events[i].stamp, events[i - 1].preempted) in SpansOf(events, n)
  {
    if i < n - 1 {
      SpansComplete(events, n - 1, i);
    } else {
      assert events[n - 1].direction.In?;
    }
  }

  /** How far apart offsets can be that agree with both messages. */
  ghost function Freedom(w: Witness): real
    requires Shaped(w)
  {
    (w.linux[4] - w.linux[2] + 2 * w.uncertainty) as real - (Instant(w, 7) - Instant(w, 1))
  }

  lemma BracketsAreClose(w: Witness)
    requires Shaped(w)
    ensures Freedom(w) <= (High(w) - Low(w)) as real < Freedom(w) + 2.0
  {
    InstantRounded(w, 1);
    InstantRounded(w, 7);
  }

  /** The brackets are not empty of meaning: a consistent offset always exists for
      exact stamps, so soundness never speaks of nothing. The reported width is at
      most the rounding of the two ticks wider than the true freedom. */
  lemma ConsistentOffsetExists(w: Witness)
    requires Shaped(w) && Ordered(w)
    requires Freedom(w) >= 0.0
    ensures TrueOffset(w, (w.linux[2] - w.uncertainty) as real - Instant(w, 1))
    ensures Low(w) <= High(w)
    ensures Freedom(w) <= (High(w) - Low(w)) as real < Freedom(w) + 2.0
  {
    BracketsAreClose(w);
    WindowsBracketTheCall(w, (w.linux[2] - w.uncertainty) as real - Instant(w, 1));
  }

  /** `attribute`. */
  method Attribute(w: Witness) returns (r: Result<Report>)
    ensures r.Ok? <==> WellFormed(w)
    ensures r.Ok? <==>
              && |w.linux| == 7 && |w.windows| == 15 && w.windows[14] > 0 && w.uncertainty >= 0 && !w.lostEvents
              && |w.switches| >= 2
              && (forall i :: 0 < i < 7 ==> w.linux[i - 1] <= w.linux[i])
              && (forall i :: 0 < i < 8 ==> w.windows[i - 1] <= w.windows[i])
              && Low(w) <= High(w) && w.switches[0].stamp <= Possible(w).begin
              && Possible(w).end <= w.switches[|w.switches| - 1].stamp
              && (forall i :: 0 < i < |w.switches| ==>
                    && w.switches[i - 1].stamp <= w.switches[i].stamp
                    && (w.switches[i - 1].direction.Out? <==> w.switches[i].direction.In?)
                    && (w.switches[i - 1].direction.In? <==> w.switches[i].direction.Out?))
              && (w.switches[0].direction.Out? || w.switches[0].direction.In?)
    ensures r.Ok? ==> r.value == ReportOf(w)
    ensures r.Ok? ==> Measures(w, r.value)
  {
    if WellFormed(w) {
      ReportMeasures(w);
    }
    if Shaped(w) {
      FormsAgree(w);
    }
    if !Shaped(w) {
      return Refused("incomplete timing witness");
    }
    if !Ordered(w) {
      return Refused("unordered request");
    }
    if Low(w) > High(w) {
      return Refused("inconsistent clock brackets");
    }
    if !Covers(w) {
      return Refused("scheduler does not cover this SDK call");
    }
    var absences := Absences(w.switches);
    if absences.Refused? {
      return Refused(absences.reason);
    }
    var spans := absences.value;
    return Ok(Report(Window(Low(w), High(w)), Possible(w), Common(w),
                     Overlap(spans, Common(w), false),
                     Overlap(spans, Common(w), true),
                     Min(Overlap(spans, Possible(w), true), CeilNs(w, 4) - FloorNs(w, 3)),
                     Crossing(spans, w)));
  }
}

/**
 The reconstructed host timelines (tools/ap3_contract.py and tools/ap4_contract.py): samples
 scaled block by block into a 4096-slot ring and read back 1024 frames later. The
 pseudo-random step is an arbitrary function; samples are exact numbers.
 */
module DelayLine {
  const SLOTS := 4096
  const DELAY := 1024

  // ------------------------------------------------------------------ ring

  /** The newest position before `end` that shares the slot of `q`. */
  function Newest(q: nat, end: nat): (s: nat)
    requires q < end
    ensures q <= s < end <= s + SLOTS && s % SLOTS == q % SLOTS
    ensures s == q <==> q + SLOTS >= end
  {
    var m := (end - 1 - q) / SLOTS;
    SameSlot(q, m);
    q + SLOTS * m
  }

  lemma SameSlot(q: nat, m: nat)
    ensures (q + SLOTS * m) % SLOTS == q % SLOTS
  {
  }

  /** Every slot holds the newest sample written to it. */
  ghost predicate Holds(ring: array2<real>, ch: nat, stream: seq<real>)
    requires ring.Length0 == 2 && ring.Length1 == SLOTS && ch < 2
    reads ring
  {
    forall q :: 0 <= q < |stream| && q + SLOTS >= |stream| ==> ring[ch, q % SLOTS] == stream[q]
  }

  /** What the ring gives for a block: silence before the delay has passed, then the newest
      sample in the slot of each delayed position. */
  function Read(stream: seq<real>, start: nat, length: nat): (r: seq<real>)
    requires start + length <= |stream|
    ensures |r| == length
  {
    seq(length, i requires 0 <= i < length =>
      if start + i < DELAY then 0.0 else stream[Newest(start + i - DELAY, start + length)])
  }

  /** The unbounded delay line: the sample of 1024 frames ago. */
  function Delayed(stream: seq<real>, start: nat, length: nat): (r: seq<real>)
    requires start + length <= |stream|
    ensures |r| == length
  {
    seq(length, i requires 0 <= i < length => if start + i < DELAY then 0.0 else stream[start + i - DELAY])
  }

  /** Nothing a block reads has been overwritten by the block itself: it has at most 3072
      frames, or starts before the delay has passed and ends within one turn of the ring. */
  predicate Fits(start: nat, length: nat) {
    length <= SLOTS - DELAY || (start < DELAY && start + length <= SLOTS)
  }

  lemma RingIsDelay(stream: seq<real>, start: nat, length: nat)
    requires start + length <= |stream| && Fits(start, length)
    ensures Read(stream, start, length) == Delayed(stream, start, length)
  {
    forall i | 0 <= i < length && start + i >= DELAY
      ensures Read(stream, start, length)[i] == stream[start + i - DELAY]
    {
      assert Newest(start + i - DELAY, start + length) == start + i - DELAY;
    }
  }

  /** The first delayed position that a block reads. */
  function Earliest(start: nat): nat {
    if start < DELAY then 0 else start - DELAY
  }

  /** A block that does not fit reads a later sample in place of its earliest. */
  lemma Overwrites(stream: seq<real>, start: nat, length: nat) returns (i: nat, later: nat)
    requires start + length <= |stream| && !Fits(start, length)
    ensures i < length && start + i == Earliest(start) + DELAY && Earliest(start) + SLOTS <= later < start + length
    ensures Read(stream, start, length)[i] == stream[later]
    ensures Delayed(stream, start, length)[i] == stream[Earliest(start)]
  {
    i := Earliest(start) + DELAY - start;
    later := Newest(Earliest(start), start + length);
  }

  /** The ring is the delay line for exactly the blocks that fit. */
  lemma RingIsDelayExactly(start: nat, length: nat)
    ensures Fits(start, length) <==>
              forall stream: seq<real> :: start + length <= |stream| ==>
                Read(stream, start, length) == Delayed(stream, start, length)
  {
    if Fits(start, length) {
      forall stream: seq<real> | start + length <= |stream|
        ensures Read(stream, start, length) == Delayed(stream, start, length)
      {
        RingIsDelay(stream, start, length);
      }
    } else {
      var q := Earliest(start);
      var stream := seq(start + length, p => if p == q then 1.0 else 0.0);
      var i, later := Overwrites(stream, start, length);
      assert Read(stream, start, length)[i] != Delayed(stream, start, length)[i];
    }
  }

  // ---------------------------------------------------------------- blocks

  datatype Block = Block(start: nat, length: nat)

  /** Blocks that follow one another without gap or overlap. */
  ghost predicate Tiles(blocks: seq<Block>, end: nat) {
    && (if blocks == [] then end == 0
        else blocks[0].start == 0 && blocks[|blocks| - 1].start + blocks[|blocks| - 1].length == end)
    && forall k :: 0 < k < |blocks| ==> blocks[k].start == blocks[k - 1].start + blocks[k - 1].length
  }

  lemma TilesOn(blocks: seq<Block>, end: nat, length: nat)
    requires Tiles(blocks, end)
    ensures Tiles(blocks + [Block(end, length)], end + length)
  {
  }

  predicate Silent(flags: nat, ch: nat) {
    flags == 3 || (flags == 1 && ch == 0)
  }

  function Iterate(step: nat -> nat, x: nat, k: nat): nat {
    if k == 0 then x else step(Iterate(step, x, k - 1))
  }

  function Sample(x: nat): real {
    (x % 65 - 32) as real / 256.0
  }

  /** The unbounded product stream: the seed's samples in frame order, silenced and scaled by
      the flags and gain of their block. */
  function Product(step: nat -> nat, seed: nat, p: nat, ch: nat, flags: nat, gain: real): real {
    Scaled(Iterate(step, seed, 2 * p + ch + 1), ch, flags, gain)
  }

  function Scaled(x: nat, ch: nat, flags: nat, gain: real): real {
    (if Silent(flags, ch) then 0.0 else Sample(x)) * gain
  }

  /** What the loop has written for one block. */
  ghost predicate Written(step: nat -> nat, seed: nat, stream: seq<real>, ch: nat, block: Block, flags: nat,
                          gain: real) {
    block.start + block.length <= |stream|
    && forall p :: block.start <= p < block.start + block.length ==>
        stream[p] == Product(step, seed, p, ch, flags, gain)
  }

  /** The samples of one block go into both channels' rings. */
  method WriteBlock(ring: array2<real>, step: nat -> nat, seed: nat, x0: nat, block: Block, flags: nat, gain: real,
                    ghost left0: seq<real>, ghost right0: seq<real>)
    returns (x: nat, ghost left: seq<real>, ghost right: seq<real>)
    requires ring.Length0 == 2 && ring.Length1 == SLOTS
    requires |left0| == |right0| == block.start && x0 == Iterate(step, seed, 2 * block.start)
    requires Holds(ring, 0, left0) && Holds(ring, 1, right0)
    modifies ring
    ensures |left| == |right| == block.start + block.length && left0 <= left && right0 <= right
    ensures Written(step, seed, left, 0, block, flags, gain) && Written(step, seed, right, 1, block, flags, gain)
    ensures x == Iterate(step, seed, 2 * (block.start + block.length))
    ensures Holds(ring, 0, left) && Holds(ring, 1, right)
  {
    x, left, right := x0, left0, right0;
    var p := block.start;
    while p < block.start + block.length
      invariant block.start <= p <= block.start + block.length && |left| == |right| == p && left0 <= left
                && right0 <= right
      invariant Written(step, seed, left, 0, Block(block.start, p - block.start), flags, gain)
      invariant Written(step, seed, right, 1, Block(block.start, p - block.start), flags, gain)
      invariant x == Iterate(step, seed, 2 * p) && Holds(ring, 0, left) && Holds(ring, 1, right)
    {
      ghost var left1, right1 := left, right;
      x, p, left, right := WriteFrame(ring, step, seed, x, p, flags, gain, left, right);
      WrittenOn(step, seed, left1, 0, block.start, flags, gain);
      WrittenOn(step, seed, right1, 1, block.start, flags, gain);
    }
  }

  lemma WrittenOn(step: nat -> nat, seed: nat, stream: seq<real>, ch: nat, start: nat, flags: nat, gain: real)
    requires start <= |stream| && Written(step, seed, stream, ch, Block(start, |stream| - start), flags, gain)
    ensures Written(step, seed, stream + [Product(step, seed, |stream|, ch, flags, gain)], ch,
                    Block(start, |stream| + 1 - start), flags, gain)
  {
  }

  method WriteFrame(ring: array2<real>, step: nat -> nat, seed: nat, x0: nat, p: nat, flags: nat, gain: real,
                    ghost left0: seq<real>, ghost right0: seq<real>)
    returns (x: nat, next: nat, ghost left: seq<real>, ghost right: seq<real>)
    requires ring.Length0 == 2 && ring.Length1 == SLOTS && |left0| == |right0| == p && x0 == Iterate(step, seed, 2 * p)
    requires Holds(ring, 0, left0) && Holds(ring, 1, right0)
    modifies ring
    ensures next == p + 1 && x == Iterate(step, seed, 2 * next) && Holds(ring, 0, left) && Holds(ring, 1, right)
    ensures left == left0 + [Product(step, seed, p, 0, flags, gain)]
            && right == right0 + [Product(step, seed, p, 1, flags, gain)]
  {
    FrameSteps(step, seed, p, x0, flags, gain);
    x := step(x0);
    WriteOne(ring, 0, p, Scaled(x, 0, flags, gain), left0, right0);
    left := left0 + [Scaled(x, 0, flags, gain)];
    x := step(x);
    WriteOne(ring, 1, p, Scaled(x, 1, flags, gain), right0, left);
    right, next := right0 + [Scaled(x, 1, flags, gain)], p + 1;
  }

  /** Two steps of the generator make one frame. */
  lemma FrameSteps(step: nat -> nat, seed: nat, p: nat, x: nat, flags: nat, gain: real)
    requires x == Iterate(step, seed, 2 * p)
    ensures Product(step, seed, p, 0, flags, gain) == Scaled(step(x), 0, flags, gain)
    ensures Product(step, seed, p, 1, flags, gain) == Scaled(step(step(x)), 1, flags, gain)
    ensures Iterate(step, seed, 2 * (p + 1)) == step(step(x))
  {
    var k := 2 * p;
    assert Iterate(step, seed, k + 1) == step(Iterate(step, seed, k));
    assert Iterate(step, seed, k + 2) == step(Iterate(step, seed, k + 1));
  }

  method WriteOne(ring: array2<real>, ch: nat, p: nat, value: real, ghost stream: seq<real>, ghost other: seq<real>)
    requires ring.Length0 == 2 && ring.Length1 == SLOTS && ch < 2 && |stream| == p
    requires Holds(ring, ch, stream) && Holds(ring, 1 - ch, other)
    modifies ring
    ensures Holds(ring, ch, stream + [value]) && Holds(ring, 1 - ch, other)
  {
    Overwrite(ring, ch, stream);
    ring[ch, p % SLOTS] := value;
  }

  lemma Overwrite(ring: array2<real>, ch: nat, stream: seq<real>)
    requires ring.Length0 == 2 && ring.Length1 == SLOTS && ch < 2 && Holds(ring, ch, stream)
    ensures forall q :: 0 <= q < |stream| && q + SLOTS >= |stream| + 1 ==> q % SLOTS != |stream| % SLOTS
  {
    forall q | 0 <= q < |stream| && q + SLOTS >= |stream| + 1 ensures q % SLOTS != |stream| % SLOTS {
      Apart(q, |stream|);
    }
  }

  lemma Apart(p: nat, q: nat)
    requires p < q < p + SLOTS
    ensures p % SLOTS != q % SLOTS
  {
  }

  /** One channel of a block is read out of the ring. */
  method ReadBlock(ring: array2<real>, ch: nat, block: Block, ghost stream: seq<real>) returns (out: seq<real>)
    requires ring.Length0 == 2 && ring.Length1 == SLOTS && ch < 2
    requires |stream| == block.start + block.length && Holds(ring, ch, stream)
    ensures out == Read(stream, block.start, block.length)
  {
    out := [];
    var i := 0;
    while i < block.length
      invariant 0 <= i <= block.length && out == Read(stream, block.start, block.length)[..i]
    {
      var p := block.start + i;
      ghost var expected := if p < DELAY then 0.0 else stream[Newest(p - DELAY, |stream|)];
      out := out + [if p < DELAY then 0.0 else ring[ch, (p - DELAY) % SLOTS]];
      i := i + 1;
    }
  }

  // --------------------------------------------------------------- timelines

  /** What is heard of a block: from the ring, or from the unbounded line. */
  ghost function Heard(stream: seq<real>, block: Block, line: bool): seq<real> {
    if block.start + block.length > |stream| then []
    else if line then Delayed(stream, block.start, block.length) else Read(stream, block.start, block.length)
  }

  /** The emission order: for each block its left samples, then its right ones. */
  ghost function Emission(left: seq<real>, right: seq<real>, blocks: seq<Block>, line: bool): seq<real> {
    if blocks == [] then []
    else Emission(left, right, blocks[..|blocks| - 1], line)
         + Heard(left, blocks[|blocks| - 1], line) + Heard(right, blocks[|blocks| - 1], line)
  }

  ghost predicate Within(blocks: seq<Block>, end: nat) {
    forall k :: 0 <= k < |blocks| ==> blocks[k].start + blocks[k].length <= end
  }

  /** Later samples change nothing of what earlier blocks gave. */
  lemma {:induction false} EmissionStays(left: seq<real>, right: seq<real>, more: seq<real>, alsoMore: seq<real>,
                                         blocks: seq<Block>)
    requires left <= more && right <= alsoMore && |left| == |right| && Within(blocks, |left|)
    ensures Emission(more, alsoMore, blocks, false) == Emission(left, right, blocks, false)
  {
    if blocks != [] {
      EmissionStays(left, right, more, alsoMore, blocks[..|blocks| - 1]);
      HeardStays(left, more, blocks[|blocks| - 1]);
      HeardStays(right, alsoMore, blocks[|blocks| - 1]);
    }
  }

  lemma HeardStays(stream: seq<real>, more: seq<real>, block: Block)
    requires stream <= more && block.start + block.length <= |stream|
    ensures Heard(more, block, false) == Heard(stream, block, false)
  {
    assert forall p :: 0 <= p < |stream| ==> more[p] == stream[p];
    var a, b := Read(more, block.start, block.length), Read(stream, block.start, block.length);
    forall i | 0 <= i < block.length ensures a[i] == b[i] {
      if block.start + i >= DELAY {
        var q := Newest(block.start + i - DELAY, block.start + block.length);
        assert more[q] == stream[q];
      }
    }
  }

  ghost predicate AllFit(blocks: seq<Block>) {
    forall k :: 0 <= k < |blocks| ==> Fits(blocks[k].start, blocks[k].length)
  }

  /** With only blocks that fit the whole timeline is the delay line's. */
  lemma {:induction false} EmissionIsDelayed(left: seq<real>, right: seq<real>, blocks: seq<Block>)
    requires AllFit(blocks)
    ensures Emission(left, right, blocks, false) == Emission(left, right, blocks, true)
  {
    if blocks != [] {
      var last := blocks[|blocks| - 1];
      EmissionIsDelayed(left, right, blocks[..|blocks| - 1]);
      if last.start + last.length <= |left| {
        RingIsDelay(left, last.start, last.length);
      }
      if last.start + last.length <= |right| {
        RingIsDelay(right, last.start, last.length);
      }
    }
  }

  lemma {:induction false} EmissionLength(left: seq<real>, right: seq<real>, blocks: seq<Block>)
    ensures |Emission(left, right, blocks, false)| == |Emission(left, right, blocks, true)|
  {
    if blocks != [] {
      EmissionLength(left, right, blocks[..|blocks| - 1]);
    }
  }

  /** The order of emission hides nothing: where one block is heard wrongly, the emission differs. */
  lemma {:induction false} EmissionTells(left: seq<real>, right: seq<real>, blocks: seq<Block>, k: nat)
    requires k < |blocks| && Heard(left, blocks[k], false) != Heard(left, blocks[k], true)
    ensures Emission(left, right, blocks, false) != Emission(left, right, blocks, true)
  {
    var n, before := |blocks| - 1, blocks[..|blocks| - 1];
    EmissionLength(left, right, before);
    if k < n {
      assert before[k] == blocks[k];
      EmissionTells(left, right, before, k);
    }
    PartsTell(Emission(left, right, before, false), Emission(left, right, before, true),
              Heard(left, blocks[n], false), Heard(left, blocks[n], true),
              Heard(right, blocks[n], false), Heard(right, blocks[n], true));
  }

  lemma PartsTell(a: seq<real>, a': seq<real>, b: seq<real>, b': seq<real>, c: seq<real>, c': seq<real>)
    requires |a| == |a'| && |b| == |b'| && (a != a' || b != b')
    ensures a + b + c != a' + b' + c'
  {
    var whole, whole' := a + b + c, a' + b' + c';
    assert whole[..|a|] == a && whole[|a|..|a| + |b|] == b;
    assert whole'[..|a'|] == a' && whole'[|a'|..|a'| + |b'|] == b';
  }

  /** What every block of a timeline was written with. */
  ghost predicate WrittenBy(step: nat -> nat, seed: nat, left: seq<real>, right: seq<real>, blocks: seq<Block>,
                            flags: (nat, nat) -> nat, gains: seq<real>)
    requires |gains| == |blocks|
  {
    forall k :: 0 <= k < |blocks| ==>
      && Written(step, seed, left, 0, blocks[k], flags(k, blocks[k].start), gains[k])
      && Written(step, seed, right, 1, blocks[k], flags(k, blocks[k].start), gains[k])
  }

  lemma StillWritten(step: nat -> nat, seed: nat, left0: seq<real>, right0: seq<real>, left: seq<real>,
                     right: seq<real>,
                     blocks: seq<Block>, block: Block, flags: (nat, nat) -> nat, gains: seq<real>, gain: real)
    requires |gains| == |blocks| && WrittenBy(step, seed, left0, right0, blocks, flags, gains) && left0 <= left
             && right0 <= right
    requires Written(step, seed, left, 0, block, flags(|blocks|, block.start), gain)
    requires Written(step, seed, right, 1, block, flags(|blocks|, block.start), gain)
    ensures WrittenBy(step, seed, left, right, blocks + [block], flags, gains + [gain])
  {
    forall k | 0 <= k < |blocks|
      ensures Written(step, seed, left, 0, blocks[k], flags(k, blocks[k].start), gains[k])
              && Written(step, seed, right, 1, blocks[k], flags(k, blocks[k].start), gains[k])
    {
      assert Written(step, seed, left0, 0, blocks[k], flags(k, blocks[k].start), gains[k]);
      assert Written(step, seed, right0, 1, blocks[k], flags(k, blocks[k].start), gains[k]);
    }
  }

  /** Part way through a timeline: the blocks so far tile it, were written as they should be,
      and what the ring gave for them has been emitted. */
  ghost predicate Playing(ring: array2<real>, step: nat -> nat, seed: nat, x: nat, position: nat, emitted: seq<real>,
                          left: seq<real>, right: seq<real>, blocks: seq<Block>, flags: (nat, nat) -> nat,
                              gains: seq<real>)
    reads ring
  {
    && ring.Length0 == 2 && ring.Length1 == SLOTS && |left| == |right| == position
       && x == Iterate(step, seed, 2 * position)
    && Holds(ring, 0, left) && Holds(ring, 1, right) && Tiles(blocks, position) && Within(blocks, position)
    && |gains| == |blocks| && WrittenBy(step, seed, left, right, blocks, flags, gains)
    && emitted == Emission(left, right, blocks, false)
  }

  /** One block through the ring: written, then emitted. */
  method Play(ring: array2<real>, step: nat -> nat, seed: nat, x0: nat, block: Block, flag: nat, gain: real,
              emitted0: seq<real>,
              ghost left0: seq<real>, ghost right0: seq<real>, ghost blocks: seq<Block>, ghost flags: (nat, nat) -> nat,
                  ghost gains: seq<real>)
    returns (x: nat, emitted: seq<real>, end: nat, ghost left: seq<real>, ghost right: seq<real>)
    requires Playing(ring, step, seed, x0, block.start, emitted0, left0, right0, blocks, flags, gains)
    requires flag == flags(|blocks|, block.start)
    modifies ring
    ensures end == block.start + block.length
    ensures Playing(ring, step, seed, x, end, emitted, left, right, blocks + [block], flags, gains + [gain])
  {
    x, left, right := WriteBlock(ring, step, seed, x0, block, flag, gain, left0, right0);
    var first := ReadBlock(ring, 0, block, left);
    var second := ReadBlock(ring, 1, block, right);
    emitted, end := emitted0 + first + second, block.start + block.length;
    EmissionStays(left0, right0, left, right, blocks);
    assert (blocks + [block])[..|blocks|] == blocks;
    StillWritten(step, seed, left0, right0, left, right, blocks, block, flags, gains, gain);
    TilesOn(blocks, block.start, block.length);
  }

  /** How a timeline is cut, silenced and scaled: the length of the block at a position, the
      flags of a block, and its gain after the one before. */
  datatype Plan = Plan(total: nat, cut: nat -> nat, flags: (nat, nat) -> nat, gain: (nat, nat, real) -> real,
                       initial: real)

  ghost predicate Proper(plan: Plan) {
    forall p: nat :: p < plan.total ==> 1 <= plan.cut(p) <= plan.total - p
  }

  /** The gain a block starts from: the one before it. */
  function Before(plan: Plan, gains: seq<real>, k: nat): real
    requires k <= |gains|
  {
    if k == 0 then plan.initial else gains[k - 1]
  }

  ghost predicate FollowsAt(plan: Plan, block: Block, gain: real, before: real, k: nat) {
    block.start < plan.total && block.length == plan.cut(block.start) && gain == plan.gain(k, block.start, before)
  }

  ghost predicate Follows(plan: Plan, blocks: seq<Block>, gains: seq<real>) {
    |gains| == |blocks| && forall k :: 0 <= k < |blocks| ==>
        FollowsAt(plan, blocks[k], gains[k], Before(plan, gains, k), k)
  }

  lemma FollowsOn(plan: Plan, blocks: seq<Block>, gains: seq<real>, block: Block, gain: real)
    requires Follows(plan, blocks, gains) && FollowsAt(plan, block, gain, Before(plan, gains, |blocks|), |blocks|)
    ensures Follows(plan, blocks + [block], gains + [gain]) && Before(plan, gains + [gain], |blocks| + 1) == gain
  {
    var blocks', gains' := blocks + [block], gains + [gain];
    forall k | 0 <= k < |blocks'| ensures FollowsAt(plan, blocks'[k], gains'[k], Before(plan, gains', k), k) {
      assert Before(plan, gains', k) == Before(plan, gains, k);
      if k < |blocks| {
        assert FollowsAt(plan, blocks[k], gains[k], Before(plan, gains, k), k);
      }
    }
  }

  /** `reconstruct`, the loop both contracts share. */
  method Reconstruct(step: nat -> nat, seed: nat, plan: Plan)
    returns (emitted: seq<real>, ghost left: seq<real>, ghost right: seq<real>, ghost blocks: seq<Block>,
             ghost gains: seq<real>)
    requires Proper(plan)
    ensures Tiles(blocks, plan.total) && |left| == |right| == plan.total && Follows(plan, blocks, gains)
    ensures WrittenBy(step, seed, left, right, blocks, plan.flags, gains)
            && emitted == Emission(left, right, blocks, false)
  {
    var ring := new real[2, SLOTS]((_, _) => 0.0);
    var x, position, b, gain := seed, 0, 0, plan.initial;
    emitted, left, right, blocks, gains := [], [], [], [], [];
    while position < plan.total
      invariant position <= plan.total && b == |blocks| && Follows(plan, blocks, gains)
      invariant Playing(ring, step, seed, x, position, emitted, left, right, blocks, plan.flags, gains)
      invariant gain == Before(plan, gains, b)
      decreases plan.total - position
    {
      var block := Block(position, plan.cut(position));
      gain := plan.gain(b, position, gain);
      FollowsOn(plan, blocks, gains, block, gain);
      x, emitted, position, left, right :=
        Play(ring, step, seed, x, block, plan.flags(b, position), gain, emitted, left, right, blocks, plan.flags,
             gains);
      blocks, gains, b := blocks + [block], gains + [gain], b + 1;
    }
  }

  // ----------------------------------------------- one outcome per record

  /** A plan leaves no choice: two timelines that follow it agree block by block. */
  lemma {:induction false} SameBlock(plan: Plan, bs: seq<Block>, gs: seq<real>, cs: seq<Block>, hs: seq<real>, k: nat)
    requires Follows(plan, bs, gs) && Follows(plan, cs, hs) && Tiles(bs, plan.total) && Tiles(cs, plan.total)
    requires k < |bs| && k < |cs|
    ensures bs[k] == cs[k] && gs[k] == hs[k]
  {
    if k > 0 {
      SameBlock(plan, bs, gs, cs, hs, k - 1);
      assert bs[k].start == bs[k - 1].start + bs[k - 1].length;
    }
    assert FollowsAt(plan, bs[k], gs[k], Before(plan, gs, k), k);
    assert FollowsAt(plan, cs[k], hs[k], Before(plan, hs, k), k);
  }

  lemma StartsBefore(plan: Plan, cs: seq<Block>, hs: seq<real>, n: nat)
    requires Follows(plan, cs, hs) && n < |cs|
    ensures cs[n].start < plan.total
  {
    assert FollowsAt(plan, cs[n], hs[n], Before(plan, hs, n), n);
  }

  lemma NoLonger(plan: Plan, bs: seq<Block>, gs: seq<real>, cs: seq<Block>, hs: seq<real>)
    requires Follows(plan, bs, gs) && Follows(plan, cs, hs) && Tiles(bs, plan.total) && Tiles(cs, plan.total)
    ensures |cs| <= |bs|
  {
    var n := |bs|;
    if n < |cs| {
      if n > 0 {
        SameBlock(plan, bs, gs, cs, hs, n - 1);
      }
      StartsBefore(plan, cs, hs, n);
    }
  }

  lemma OneTimeline(plan: Plan, bs: seq<Block>, gs: seq<real>, cs: seq<Block>, hs: seq<real>)
    requires Follows(plan, bs, gs) && Follows(plan, cs, hs) && Tiles(bs, plan.total) && Tiles(cs, plan.total)
    ensures bs == cs && gs == hs
  {
    NoLonger(plan, bs, gs, cs, hs);
    NoLonger(plan, cs, hs, bs, gs);
    forall k | 0 <= k < |bs| ensures bs[k] == cs[k] && gs[k] == hs[k] {
      SameBlock(plan, bs, gs, cs, hs, k);
    }
  }

  /** Blocks that tile a timeline leave no frame out. */
  lemma {:induction false} BlockOf(blocks: seq<Block>, end: nat, p: nat) returns (k: nat)
    requires Tiles(blocks, end) && p < end
    ensures k < |blocks| && blocks[k].start <= p < blocks[k].start + blocks[k].length
  {
    var n := |blocks|;
    if p >= blocks[n - 1].start {
      k := n - 1;
    } else {
      assert blocks[n - 1].start == blocks[n - 2].start + blocks[n - 2].length;
      k := BlockOf(blocks[..n - 1], blocks[n - 1].start, p);
    }
  }

  /** What is emitted depends on the seed and the plan alone: two reconstructions that meet
      their specification emit the same samples in the same order. */
  lemma OneEmission(step: nat -> nat, seed: nat, plan: Plan, left: seq<real>, right: seq<real>, bs: seq<Block>,
                    gs: seq<real>,
                    left': seq<real>, right': seq<real>, cs: seq<Block>, hs: seq<real>, line: bool)
    requires Follows(plan, bs, gs) && Follows(plan, cs, hs) && Tiles(bs, plan.total) && Tiles(cs, plan.total)
    requires |left| == |right| == |left'| == |right'| == plan.total
    requires WrittenBy(step, seed, left, right, bs, plan.flags, gs)
             && WrittenBy(step, seed, left', right', cs, plan.flags, hs)
    ensures left == left' && right == right' && Emission(left, right, bs, line) == Emission(left', right', cs, line)
  {
    OneTimeline(plan, bs, gs, cs, hs);
    forall p | 0 <= p < plan.total ensures left[p] == left'[p] && right[p] == right'[p] {
      var k := BlockOf(bs, plan.total, p);
      assert Written(step, seed, left, 0, bs[k], plan.flags(k, bs[k].start), gs[k]);
      assert Written(step, seed, left', 0, bs[k], plan.flags(k, bs[k].start), gs[k]);
      assert Written(step, seed, right, 1, bs[k], plan.flags(k, bs[k].start), gs[k]);
      assert Written(step, seed, right', 1, bs[k], plan.flags(k, bs[k].start), gs[k]);
    }
    assert left == left' && right == right';
  }

  /** Which channels are silent: 3 is both, 1 the first. */
  function Flags(b: nat, position: nat, active: nat): nat {
    if position >= active || b % 17 == 8 then 3 else if b % 13 == 4 then 1 else 0
  }

  // --------------------------------------------------------------------- AP3

  /** Each block lies on one side of the end of the active part. */
  function Cut3(n: nat, active: nat, position: nat): nat {
    var left := if position < active + DELAY then active + DELAY - position else 0;
    var length := if n < left then n else left;
    if position < active && length > active - position then active - position else length
  }

  function Gain3(b: nat, before: real): real {
    var updated := if b % 5 != 1 && b != 0 then [0.5, 0.25, 0.0, 0.75][(b / 5) % 4] else before;
    if b % 19 == 18 then 0.25 else updated
  }

  function Initial3(persistence: bool): real {
    if persistence then 0.25 else 1.0
  }

  function Plan3(n: nat, persistence: bool, active: nat): Plan {
    Plan(active + DELAY, (p: nat) => Cut3(n, active, p), (b: nat, p: nat) => Flags(b, p, active),
         (b: nat, p: nat, before: real) => Gain3(b, before), Initial3(persistence))
  }

  lemma Proper3(n: nat, persistence: bool, active: nat)
    requires n >= 1
    ensures Proper(Plan3(n, persistence, active))
  {
  }

  /** Each AP3 block has 1 to `n` frames and stands on one side of the end of the active part. */
  lemma BlocksKeepToOneSide(n: nat, persistence: bool, active: nat, blocks: seq<Block>, gains: seq<real>, k: nat)
    requires n >= 1 && Follows(Plan3(n, persistence, active), blocks, gains) && k < |blocks|
    ensures 1 <= blocks[k].length <= n && (blocks[k].start + blocks[k].length <= active || active <= blocks[k].start)
  {
  }

  /** The gain of an AP3 block by its number: a flush sets it back in every nineteenth block;
      otherwise it is kept in every fifth, and moves through a cycle of four over the rest. */
  lemma GainAt3(n: nat, persistence: bool, active: nat, blocks: seq<Block>, gains: seq<real>, k: nat)
    requires Follows(Plan3(n, persistence, active), blocks, gains) && k < |blocks|
    ensures k == 0 ==> gains[k] == if persistence then 0.25 else 1.0
    ensures k % 19 == 18 ==> gains[k] == 0.25
    ensures k % 19 != 18 && k % 5 == 1 ==> gains[k] == gains[k - 1]
    ensures k % 19 != 18 && k % 5 != 1 && k > 0 ==>
              gains[k] == match k / 5 % 4 case 0 => 0.5 case 1 => 0.25 case 2 => 0.0 case _ => 0.75
  {
    Gained3(n, persistence, active, blocks, gains, k);
  }

  lemma Gained3(n: nat, persistence: bool, active: nat, blocks: seq<Block>, gains: seq<real>, k: nat)
    requires Follows(Plan3(n, persistence, active), blocks, gains) && k < |blocks|
    ensures gains[k] == Gain3(k, if k == 0 then Initial3(persistence) else gains[k - 1])
  {
    var plan := Plan3(n, persistence, active);
    assert FollowsAt(plan, blocks[k], gains[k], Before(plan, gains, k), k);
  }

  /** The samples of an AP3 block: silent after the active part, in every seventeenth block, and
      on the left in every thirteenth; otherwise the generator's next two numbers, scaled. */
  lemma SampleAt3(step: nat -> nat, seed: nat, n: nat, persistence: bool, active: nat, left: seq<real>,
                  right: seq<real>, blocks: seq<Block>, gains: seq<real>, k: nat, p: nat)
    requires n >= 1 && Follows(Plan3(n, persistence, active), blocks, gains) && k < |blocks|
    requires WrittenBy(step, seed, left, right, blocks, Plan3(n, persistence, active).flags, gains)
    requires blocks[k].start <= p < blocks[k].start + blocks[k].length
    ensures p < |left| && p < |right|
    ensures left[p] == Sounding(step, seed, p, 0, p >= active || k % 17 == 8 || k % 13 == 4, gains[k])
    ensures right[p] == Sounding(step, seed, p, 1, p >= active || k % 17 == 8, gains[k])
  {
    BlocksKeepToOneSide(n, persistence, active, blocks, gains, k);
    ProductAt3(step, seed, n, persistence, active, left, right, blocks, gains, k, p);
    Heeded(step, seed, p, k, blocks[k].start, active, gains[k], p >= active);
  }

  lemma ProductAt3(step: nat -> nat, seed: nat, n: nat, persistence: bool, active: nat, left: seq<real>,
                   right: seq<real>, blocks: seq<Block>, gains: seq<real>, k: nat, p: nat)
    requires k < |blocks| == |gains| && blocks[k].start <= p < blocks[k].start + blocks[k].length
    requires WrittenBy(step, seed, left, right, blocks, Plan3(n, persistence, active).flags, gains)
    ensures p < |left| && left[p] == Product(step, seed, p, 0, Flags(k, blocks[k].start, active), gains[k])
    ensures p < |right| && right[p] == Product(step, seed, p, 1, Flags(k, blocks[k].start, active), gains[k])
  {
    var flags := Plan3(n, persistence, active).flags(k, blocks[k].start);
    assert flags == Flags(k, blocks[k].start, active);
    assert Written(step, seed, left, 0, blocks[k], flags, gains[k]);
    assert Written(step, seed, right, 1, blocks[k], flags, gains[k]);
  }

  /** The generator's number for this channel of this frame, scaled; or silence. */
  ghost function Sounding(step: nat -> nat, seed: nat, p: nat, ch: nat, silent: bool, gain: real): real {
    if silent then 0.0 else (Iterate(step, seed, 2 * p + ch + 1) % 65 - 32) as real / 256.0 * gain
  }

  /** What a block's flags make of a sample. */
  lemma Heeded(step: nat -> nat, seed: nat, p: nat, b: nat, position: nat, active: nat, gain: real, after: bool)
    requires after <==> position >= active
    ensures Product(step, seed, p, 0, Flags(b, position, active), gain)
            == Sounding(step, seed, p, 0, after || b % 17 == 8 || b % 13 == 4, gain)
    ensures Product(step, seed, p, 1, Flags(b, position, active), gain)
            == Sounding(step, seed, p, 1, after || b % 17 == 8, gain)
  {
  }

  /** The block sizes for which an AP3 timeline never overwrites what it still reads. */
  predicate Fits3(n: nat, active: nat) {
    n <= SLOTS - DELAY || ((n <= SLOTS || active <= SLOTS) && active <= n + SLOTS - DELAY)
  }

  lemma {:induction false} AfterFirst(blocks: seq<Block>, end: nat, k: nat)
    requires Tiles(blocks, end) && 0 < k < |blocks|
    ensures blocks[0].length <= blocks[k].start
  {
    assert blocks[k].start == blocks[k - 1].start + blocks[k - 1].length;
    if k > 1 {
      AfterFirst(blocks, end, k - 1);
    }
  }

  lemma BlockFits3(n: nat, persistence: bool, active: nat, blocks: seq<Block>, gains: seq<real>, k: nat)
    requires n >= 1 && Fits3(n, active) && Follows(Plan3(n, persistence, active), blocks, gains)
    requires Tiles(blocks, active + DELAY) && k < |blocks|
    ensures Fits(blocks[k].start, blocks[k].length)
  {
    var plan := Plan3(n, persistence, active);
    assert FollowsAt(plan, blocks[k], gains[k], Before(plan, gains, k), k);
    assert FollowsAt(plan, blocks[0], gains[0], Before(plan, gains, 0), 0);
    if k > 0 {
      AfterFirst(blocks, active + DELAY, k);
    }
  }

  /** Where the first overwritten sample of an AP3 timeline stood. */
  function Overwritten3(n: nat, active: nat): nat {
    if n > SLOTS && active > SLOTS then 0 else if n < DELAY then 0 else n - DELAY
  }

  /** Otherwise the first block does not fit, or the second. */
  lemma Misfit3(n: nat, persistence: bool, active: nat, blocks: seq<Block>, gains: seq<real>) returns (k: nat)
    requires n >= 1 && !Fits3(n, active) && Follows(Plan3(n, persistence, active), blocks, gains)
    requires Tiles(blocks, active + DELAY)
    ensures k < |blocks| && k <= 1 && !Fits(blocks[k].start, blocks[k].length) && blocks[k].start == k * n < active
    ensures blocks[k].start + blocks[k].length <= active && (k == 1 ==> blocks[0] == Block(0, n))
    ensures gains[k] == gains[0] == Plan3(n, persistence, active).initial
    ensures Earliest(blocks[k].start) == Overwritten3(n, active) < blocks[0].length && blocks[0].start == 0
  {
    var plan := Plan3(n, persistence, active);
    assert FollowsAt(plan, blocks[0], gains[0], Before(plan, gains, 0), 0);
    k := 0;
    if Fits(blocks[0].start, blocks[0].length) {
      k := 1;
      assert blocks[1].start == blocks[0].start + blocks[0].length;
      assert FollowsAt(plan, blocks[1], gains[1], Before(plan, gains, 1), 1);
    }
  }

  /** A generator that counts up to a limit and stays there. */
  function UpTo(limit: nat): nat -> nat {
    x => if x < limit then x + 1 else limit
  }

  lemma {:induction false} Counted(limit: nat, k: nat)
    ensures Iterate(UpTo(limit), 0, k) == if k < limit then k else limit
  {
    if k > 0 {
      Counted(limit, k - 1);
    }
  }

  lemma Neighbours(x: nat)
    ensures Sample(x) != Sample(x + 1)
  {
    var a, b := x % 65, (x + 1) % 65;
    assert a != b;
    assert (a - 32) as real != (b - 32) as real;
  }

  lemma NextDiffers(x: nat, y: nat, a: real, b: real)
    requires y == x + 1 && a == Sample(x) && b == Sample(y)
    ensures a != b
  {
    Neighbours(x);
  }

  /** For every other block size some generator tells: what is emitted is not the delay line's. */
  lemma Diverges3(n: nat, persistence: bool, active: nat, left: seq<real>, right: seq<real>, blocks: seq<Block>,
                  gains: seq<real>)
    requires n >= 1 && !Fits3(n, active)
    requires Tiles(blocks, active + DELAY) && |left| == |right| == active + DELAY
    requires Follows(Plan3(n, persistence, active), blocks, gains)
    requires WrittenBy(UpTo(2 * Overwritten3(n, active) + 2), 0, left, right, blocks,
                       Plan3(n, persistence, active).flags, gains)
    ensures Emission(left, right, blocks, false) != Emission(left, right, blocks, true)
  {
    var k := Misfit3(n, persistence, active, blocks, gains);
    var block := blocks[k];
    var i, later := Overwrites(left, block.start, block.length);
    OverwrittenDiffers(n, persistence, active, left, right, blocks, gains, k, later);
    assert Read(left, block.start, block.length)[i] != Delayed(left, block.start, block.length)[i];
    EmissionTells(left, right, blocks, k);
  }

  lemma Audible(n: nat, persistence: bool, active: nat, k: nat, start: nat)
    requires k <= 1 && start < active
    ensures Plan3(n, persistence, active).flags(k, start) == 0 && Plan3(n, persistence, active).initial != 0.0
  {
  }

  /** A block among the first two of a timeline holds the generator's plain samples. */
  lemma Plain(step: nat -> nat, n: nat, persistence: bool, active: nat, left: seq<real>, right: seq<real>,
              blocks: seq<Block>,
              gains: seq<real>, k: nat)
    requires k < |blocks| == |gains| && k <= 1 && blocks[k].start < active
    requires gains[k] == Plan3(n, persistence, active).initial
    requires WrittenBy(step, 0, left, right, blocks, Plan3(n, persistence, active).flags, gains)
    ensures Written(step, 0, left, 0, blocks[k], 0, Plan3(n, persistence, active).initial)
  {
    Audible(n, persistence, active, k, blocks[k].start);
    assert Written(step, 0, left, 0, blocks[k], Plan3(n, persistence, active).flags(k, blocks[k].start), gains[k]);
  }

  /** There a sample stands as it was generated, or a quarter of it. */
  lemma Stands(limit: nat, n: nat, persistence: bool, active: nat, left: seq<real>, right: seq<real>,
               blocks: seq<Block>,
               gains: seq<real>, k: nat, p: nat) returns (x: nat, sample: real)
    requires k < |blocks| == |gains| && k <= 1 && blocks[k].start < active
    requires gains[k] == Plan3(n, persistence, active).initial
    requires WrittenBy(UpTo(limit), 0, left, right, blocks, Plan3(n, persistence, active).flags, gains)
    requires blocks[k].start <= p < blocks[k].start + blocks[k].length
    ensures x == (if 2 * p + 1 < limit then 2 * p + 1 else limit) && sample == Sample(x)
    ensures p < |left| && left[p] == if persistence then sample / 4.0 else sample
  {
    Plain(UpTo(limit), n, persistence, active, left, right, blocks, gains, k);
    Counted(limit, 2 * p + 1);
    x := if 2 * p + 1 < limit then 2 * p + 1 else limit;
    sample := Sample(x);
  }

  lemma OverwrittenDiffers(n: nat, persistence: bool, active: nat, left: seq<real>, right: seq<real>,
                           blocks: seq<Block>,
                           gains: seq<real>, k: nat, later: nat)
    requires n >= 1 && k < |blocks| == |gains| && k <= 1 && blocks[k].start < active && blocks[0].start == 0 < active
    requires WrittenBy(UpTo(2 * Overwritten3(n, active) + 2), 0, left, right, blocks,
                       Plan3(n, persistence, active).flags, gains)
    requires gains[k] == gains[0] == Plan3(n, persistence, active).initial
    requires Earliest(blocks[k].start) == Overwritten3(n, active) < blocks[0].length
    requires Earliest(blocks[k].start) < later && blocks[k].start <= later < blocks[k].start + blocks[k].length
    ensures later < |left| && left[Earliest(blocks[k].start)] != left[later]
  {
    var q := Earliest(blocks[k].start);
    var x, a := Stands(2 * q + 2, n, persistence, active, left, right, blocks, gains, 0, q);
    var y, b := Stands(2 * q + 2, n, persistence, active, left, right, blocks, gains, k, later);
    NextDiffers(x, y, a, b);
  }

  /** AP3: the blocks tile the timeline, and what is emitted is the delayed product stream for
      every generator and seed exactly if the block size fits; for the others the run below
      is one where it is not. */
  method Reconstruct3(step: nat -> nat, seed: nat, n: nat, persistence: bool, active: nat)
    returns (emitted: seq<real>, ghost left: seq<real>, ghost right: seq<real>, ghost blocks: seq<Block>,
             ghost gains: seq<real>)
    requires n >= 1
    ensures Tiles(blocks, active + DELAY) && |left| == |right| == active + DELAY
    ensures Follows(Plan3(n, persistence, active), blocks, gains)
    ensures WrittenBy(step, seed, left, right, blocks, Plan3(n, persistence, active).flags, gains)
    ensures emitted == Emission(left, right, blocks, false)
    ensures Fits3(n, active) ==> emitted == Emission(left, right, blocks, true)
  {
    Proper3(n, persistence, active);
    emitted, left, right, blocks, gains := Reconstruct(step, seed, Plan3(n, persistence, active));
    if Fits3(n, active) {
      forall k | 0 <= k < |blocks| ensures Fits(blocks[k].start, blocks[k].length) {
        BlockFits3(n, persistence, active, blocks, gains, k);
      }
      EmissionIsDelayed(left, right, blocks);
    }
  }

  /** With one generator per block size that is telling, the two agree exactly if it fits. */
  method Telling3(n: nat, persistence: bool, active: nat)
    returns (emitted: seq<real>, ghost left: seq<real>, ghost right: seq<real>, ghost blocks: seq<Block>)
    requires n >= 1
    ensures emitted == Emission(left, right, blocks, true) <==> Fits3(n, active)
  {
    ghost var gains;
    emitted, left, right, blocks, gains :=
      Reconstruct3(UpTo(2 * Overwritten3(n, active) + 2), 0, n, persistence, active);
    if !Fits3(n, active) {
      Diverges3(n, persistence, active, left, right, blocks, gains);
    }
  }

  // --------------------------------------------------------------------- AP4

  const BLOCK4 := 256

  function Plan4(n: nat, initial: real, mute: nat): Plan {
    Plan(n + DELAY, (p: nat) => if p + BLOCK4 < n + DELAY then BLOCK4 else if p < n + DELAY then n + DELAY - p else 0,
         (b: nat, p: nat) => Flags(b, p, n), (b: nat, p: nat, before: real) => if p >= mute then 0.0 else before,
             initial)
  }

  lemma Proper4(n: nat, initial: real, mute: nat)
    ensures Proper(Plan4(n, initial, mute))
  {
  }

  /** Blocks stand at multiples of 256, and an aligned mute is in force from exactly there. */
  lemma {:induction false} MuteIsExact(n: nat, initial: real, mute: nat, blocks: seq<Block>, gains: seq<real>, k: nat)
    requires Follows(Plan4(n, initial, mute), blocks, gains) && Tiles(blocks, n + DELAY) && k < |blocks|
    ensures blocks[k].start == k * BLOCK4 && 1 <= blocks[k].length <= BLOCK4
    ensures gains[k] == if blocks[k].start >= mute then 0.0 else initial
  {
    var before := Before(Plan4(n, initial, mute), gains, k);
    assert FollowsAt(Plan4(n, initial, mute), blocks[k], gains[k], before, k);
    assert gains[k] == Plan4(n, initial, mute).gain(k, blocks[k].start, before);
    assert gains[k] == if blocks[k].start >= mute then 0.0 else before;
    if k > 0 {
      MuteIsExact(n, initial, mute, blocks, gains, k - 1);
      assert blocks[k].start == blocks[k - 1].start + blocks[k - 1].length;
    }
  }

  lemma MutedProduct(step: nat -> nat, seed: nat, n: nat, initial: real, mute: nat, left: seq<real>,
                     right: seq<real>, blocks: seq<Block>, gains: seq<real>, k: nat, p: nat)
    requires Follows(Plan4(n, initial, mute), blocks, gains) && Tiles(blocks, n + DELAY) && k < |blocks|
    requires WrittenBy(step, seed, left, right, blocks, Plan4(n, initial, mute).flags, gains)
    requires (mute % BLOCK4 == 0 || mute >= n + DELAY) && blocks[k].start <= p < blocks[k].start + blocks[k].length
    ensures p < |left| && p < |right|
    ensures left[p] == Product(step, seed, p, 0, Flags(k, blocks[k].start, n), if p >= mute then 0.0 else initial)
    ensures right[p] == Product(step, seed, p, 1, Flags(k, blocks[k].start, n), if p >= mute then 0.0 else initial)
  {
    MuteIsExact(n, initial, mute, blocks, gains, k);
    assert FollowsAt(Plan4(n, initial, mute), blocks[k], gains[k], Before(Plan4(n, initial, mute), gains, k), k);
    SameSide(k, p, mute, n);
    assert Plan4(n, initial, mute).flags(k, blocks[k].start) == Flags(k, blocks[k].start, n);
  }

  /** Each sample of an AP4 timeline by its position: silent from the mute's own frame on, in
      blocks after the active part, in every seventeenth block, and on the left in every
      thirteenth; otherwise the generator's next two numbers, scaled. */
  lemma MuteAt(step: nat -> nat, seed: nat, n: nat, initial: real, mute: nat, left: seq<real>, right: seq<real>,
               blocks: seq<Block>, gains: seq<real>, k: nat, p: nat)
    requires Follows(Plan4(n, initial, mute), blocks, gains) && Tiles(blocks, n + DELAY) && k < |blocks|
    requires WrittenBy(step, seed, left, right, blocks, Plan4(n, initial, mute).flags, gains)
    requires (mute % BLOCK4 == 0 || mute >= n + DELAY) && blocks[k].start <= p < blocks[k].start + blocks[k].length
    ensures p < |left| && p < |right| && k == p / 256
    ensures left[p] == Sounding(step, seed, p, 0, k * 256 >= n || k % 17 == 8 || k % 13 == 4,
                                if p >= mute then 0.0 else initial)
    ensures right[p] == Sounding(step, seed, p, 1, k * 256 >= n || k % 17 == 8, if p >= mute then 0.0 else initial)
  {
    MutedProduct(step, seed, n, initial, mute, left, right, blocks, gains, k, p);
    MuteIsExact(n, initial, mute, blocks, gains, k);
    InBlock(k, p, blocks[k].length);
    Heeded(step, seed, p, k, blocks[k].start, n, if p >= mute then 0.0 else initial, k * 256 >= n);
  }

  lemma InBlock(k: nat, p: nat, length: nat)
    requires k * BLOCK4 <= p < k * BLOCK4 + length && length <= BLOCK4
    ensures p / 256 == k
  {
  }

  lemma SameSide(k: nat, p: nat, mute: nat, n: nat)
    requires (mute % BLOCK4 == 0 || mute >= n + DELAY) && k * BLOCK4 <= p < k * BLOCK4 + BLOCK4 && p < n + DELAY
    ensures p >= mute <==> k * BLOCK4 >= mute
  {
  }

  /** AP4: the blocks tile the timeline and what is emitted is the product stream, muted as
      `MuteAt` says, delayed. */
  method Reconstruct4(step: nat -> nat, seed: nat, n: nat, initial: real, mute: nat)
    returns (emitted: seq<real>, ghost left: seq<real>, ghost right: seq<real>, ghost blocks: seq<Block>,
             ghost gains: seq<real>)
    ensures Tiles(blocks, n + DELAY) && |left| == |right| == n + DELAY
    ensures Follows(Plan4(n, initial, mute), blocks, gains)
    ensures WrittenBy(step, seed, left, right, blocks, Plan4(n, initial, mute).flags, gains)
    ensures emitted == Emission(left, right, blocks, true)
  {
    Proper4(n, initial, mute);
    emitted, left, right, blocks, gains := Reconstruct(step, seed, Plan4(n, initial, mute));
    forall k | 0 <= k < |blocks| ensures Fits(blocks[k].start, blocks[k].length) {
      MuteIsExact(n, initial, mute, blocks, gains, k);
    }
    EmissionIsDelayed(left, right, blocks);
  }
}

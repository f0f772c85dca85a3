/**
 The shared audio mapping (native-audio-client/src/mapping.rs): one region of bytes, views
 of it, the single permit to touch its samples, and the planes the samples lie in.
 */
module Mapping {
  import opened Bytes
  import opened Wire

  // ---------------------------------------------------------------- layout

  datatype Layout = Layout(capacity: nat, stride: nat, output: nat, version: nat, channels: nat)

  function LayoutFor(channels: nat, wholeBlock: bool): Option<Layout> {
    if channels != 2 && channels != MULTI_CHANNELS then None
    else if wholeBlock && channels != MULTI_CHANNELS then None
    else if wholeBlock then Some(Layout(BLOCK_CAP, BLOCK_STRIDE, BLOCK_OUTPUT, 3, channels))
    else Some(Layout(CAP, STRIDE, OUTPUT, if channels == 2 then 1 else 2, channels))
  }

  ghost predicate Legal(l: Layout) {
    exists channels, wholeBlock :: LayoutFor(channels, wholeBlock) == Some(l)
  }

  function Size(l: Layout): nat {
    l.output + l.channels * l.stride
  }

  /** There are three layouts: two channels or 64 in blocks of 256 frames, and 64 in blocks of
      1024; each places two planes after the 64 bytes of the header, and then the others. */
  lemma LayoutsAre(l: Layout)
    ensures Legal(l) <==>
              || l == Layout(256, 1032, 2128, 1, 2) || l == Layout(256, 1032, 2128, 2, 64)
              || l == Layout(1024, 4104, 8272, 3, 64)
    ensures Legal(l) ==> Offset(l, In(0)) == 64 && Offset(l, In(1)) == 64 + l.stride && Offset(l, Out(0)) == l.output
                         && forall k: nat :: Offset(l, Out(k + 1)) == Offset(l, Out(k)) + l.stride
  {
    assert LayoutFor(2, false) == Some(Layout(256, 1032, 2128, 1, 2));
    assert LayoutFor(64, false) == Some(Layout(256, 1032, 2128, 2, 64));
    assert LayoutFor(64, true) == Some(Layout(1024, 4104, 8272, 3, 64));
  }

  datatype Plane = In(channel: nat) | Out(channel: nat)

  predicate Exists(l: Layout, p: Plane) {
    if p.In? then p.channel < 2 else p.channel < l.channels
  }

  function Offset(l: Layout, p: Plane): nat {
    (if p.In? then INPUT else l.output) + p.channel * l.stride
  }

  /** A plane is its samples between two guard words, beyond the control header, within the
      mapping, and apart from every other plane. */
  lemma PlanesAreApart(l: Layout, p: Plane, q: Plane)
    requires Legal(l) && Exists(l, p) && Exists(l, q)
    ensures l.stride == 4 * (l.capacity + 2)
    ensures INPUT <= Offset(l, p) && Offset(l, p) + l.stride <= Size(l)
    ensures p != q ==> Offset(l, p) + l.stride <= Offset(l, q) || Offset(l, q) + l.stride <= Offset(l, p)
  {
    var channels, wholeBlock :| LayoutFor(channels, wholeBlock) == Some(l);
    assert l.output == INPUT + 2 * l.stride;
    Ordered(p.channel, q.channel, l.stride);
    Ordered(q.channel, p.channel, l.stride);
    Ordered(p.channel, 2, l.stride);
    Ordered(q.channel, 2, l.stride);
    Ordered(p.channel, l.channels, l.stride);
    Ordered(q.channel, l.channels, l.stride);
  }

  lemma Ordered(i: nat, j: nat, stride: nat)
    ensures i < j ==> i * stride + stride <= j * stride
  {
    if i < j {
      assert (i + 1) * stride <= j * stride;
    }
  }

  // ----------------------------------------------------------------- words

  /** Words as the bytes of a plane, and back. */
  function Flat(words: seq<nat>): (b: seq<byte>)
    ensures |b| == 4 * |words|
  {
    if words == [] then [] else Put(words[0], 4) + Flat(words[1..])
  }

  function WordAt(b: seq<byte>, i: nat): nat
    requires 4 * i + 4 <= |b|
  {
    Get(b[4 * i..4 * i + 4])
  }

  lemma {:induction false} FlatWord(words: seq<nat>, i: nat)
    requires i < |words| && forall k :: 0 <= k < |words| ==> words[k] < Pow256(4)
    ensures WordAt(Flat(words), i) == words[i]
  {
    var first, rest := Put(words[0], 4), Flat(words[1..]);
    if i == 0 {
      GetPut(words[0], 4);
      assert (first + rest)[0..4] == first;
    } else {
      FlatWord(words[1..], i - 1);
      assert (first + rest)[4 * i..4 * i + 4] == rest[4 * (i - 1)..4 * (i - 1) + 4];
    }
  }

  // ----------------------------------------------------- views of a region

  /** The file behind the views: its bytes, and the permit they all share. */
  class Region {
    const bytes: array<byte>
    const layout: Layout
    var claim: bool
    ghost var views: set<View>

    /** One view at most can touch samples; the permit is held exactly while an audio view
        lives; besides audio views there is only the one the region was created with. */
    ghost predicate Valid()
      reads this, views
    {
      && bytes.Length == Size(layout)
      && (forall v :: v in views ==> v.region == this && v.live && (v.audioView ==> !v.controlOnly))
      && (forall u, v :: u in views && v in views && !u.controlOnly && !v.controlOnly ==> u == v)
      && (forall u, v :: u in views && v in views && u.audioView == v.audioView ==> u == v)
      && (claim <==> exists v :: v in views && v.audioView)
    }

    constructor (layout: Layout)
      requires Legal(layout)
      ensures fresh(this) && fresh(bytes) && bytes.Length == Size(layout) && this.layout == layout
      ensures !claim && views == {} && Valid() && bytes[..] == Zeros(Size(layout))
    {
      this.layout, claim, views := layout, false, {};
      bytes := new byte[Size(layout)](_ => 0);
    }
  }

  class View {
    const region: Region
    const audioView: bool
    var controlOnly: bool
    var live: bool

    constructor (region: Region, audioView: bool)
      ensures this.region == region && this.audioView == audioView && !controlOnly && live
    {
      this.region, this.audioView, controlOnly, live := region, audioView, false, true;
    }

    ghost predicate Valid()
      reads this, region, region.views
    {
      region.Valid() && this in region.views
    }

    /** This view may copy to and from these bytes. */
    predicate Accessible(offset: nat, length: nat)
      reads this
    {
      offset + length <= region.bytes.Length && (!controlOnly || offset + length <= INPUT)
    }

    /** `transfer_audio`: refused while an audio view lives; a failed mapping gives the
        permit back; success leaves this view to the header. */
    method TransferAudio(mapped: bool) returns (audio: View?)
      requires Valid()
      modifies this`controlOnly, region`claim, region`views
      ensures Valid() && live == old(live)
      ensures audio != null <==> !old(region.claim) && mapped
      ensures audio != null ==>
                fresh(audio) && audio.region == region && audio.Valid() && audio.audioView && controlOnly
                                && region.views == old(region.views) + {audio}
      ensures audio != null ==>
                forall offset: nat, n: nat ::
                  && (Accessible(offset, n) <==> offset + n <= 64 && offset + n <= region.bytes.Length)
                  && (audio.Accessible(offset, n) <==> offset + n <= region.bytes.Length)
      ensures audio == null ==>
                region.views == old(region.views) && region.claim == old(region.claim)
                    && controlOnly == old(controlOnly)
    {
      if region.claim {
        return null;
      }
      region.claim := true;
      if !mapped {
        region.claim := false;
        return null;
      }
      audio := new View(region, true);
      controlOnly := true;
      region.views := region.views + {audio};
    }

    /** `drop`, and with it the end of `close`: an audio view returns the permit. */
    method Drop()
      requires Valid()
      modifies this`live, region`claim, region`views
      ensures region.Valid() && !live && region.views == old(region.views) - {this}
      ensures region.claim == (old(region.claim) && !audioView)
    {
      if audioView {
        region.claim := false;
      }
      region.views := region.views - {this};
      live := false;
    }

    method Write(offset: nat, b: seq<byte>) returns (ok: bool)
      requires Valid()
      modifies region.bytes
      ensures ok <==> offset + |b| <= Size(region.layout) && (controlOnly ==> offset + |b| <= 64)
      ensures region.bytes[..] == if ok then old(region.bytes[..offset]) + b + old(region.bytes[offset + |b|..])
              else old(region.bytes[..])
    {
      ok := Accessible(offset, |b|);
      if ok {
        CopyInto(region.bytes, offset, b);
      }
    }

    method Read(offset: nat, n: nat) returns (r: Option<seq<byte>>)
      requires Valid()
      ensures r.Some? <==> offset + n <= Size(region.layout) && (controlOnly ==> offset + n <= 64)
      ensures r.Some? ==> r.value == region.bytes[offset..offset + n]
    {
      r := if Accessible(offset, n) then Some(region.bytes[offset..offset + n]) else None;
    }

    /** `with_layout`, once the region is mapped: guard words around every plane. */
    method Prepare()
      requires Valid() && Legal(region.layout) && !controlOnly
      modifies region.bytes
      ensures forall p :: Exists(region.layout, p) ==> Guarded(region.bytes[..], region.layout, p)
    {
      var l := region.layout;
      StrideOf(l);
      var ch := 0;
      while ch < 2
        invariant 0 <= ch <= 2
        invariant forall p: Plane :: p.In? && p.channel < ch ==> Guarded(region.bytes[..], l, p)
      {
        GuardPlane(In(ch));
        ch := ch + 1;
      }
      ch := 0;
      while ch < l.channels
        invariant 0 <= ch <= l.channels
        invariant forall p: Plane :: Exists(l, p) && (p.In? || p.channel < ch) ==> Guarded(region.bytes[..], l, p)
      {
        GuardPlane(Out(ch));
        ch := ch + 1;
      }
    }

    method GuardPlane(p: Plane)
      requires Valid() && Legal(region.layout) && !controlOnly && Exists(region.layout, p)
      modifies region.bytes
      ensures Guarded(region.bytes[..], region.layout, p)
      ensures forall q :: Exists(region.layout, q) && q != p && Guarded(old(region.bytes[..]), region.layout, q) ==>
                Guarded(region.bytes[..], region.layout, q)
    {
      var l := region.layout;
      var at := Offset(l, p);
      PlanesAreApart(l, p, p);
      ghost var b0 := region.bytes[..];
      var ok := Write(at, Put(GUARD, 4));
      ghost var b1 := region.bytes[..];
      ok := Write(at + (l.capacity + 1) * 4, Put(GUARD, 4));
      GuardsSet(l, b0, b1, region.bytes[..], p);
      forall q | Exists(l, q) && q != p && Guarded(b0, l, q) ensures Guarded(region.bytes[..], l, q) {
        OthersKeepGuards(l, b0, b1, region.bytes[..], p, q);
      }
    }

    /** `close`: the view is spent whether or not the unmapping succeeds. */
    method Close(unmaps: bool) returns (ok: bool)
      requires Valid()
      modifies this`live, region`claim, region`views
      ensures region.Valid() && !live && region.views == old(region.views) - {this} && ok == unmaps
      ensures region.claim == (old(region.claim) && !audioView)
    {
      ok := unmaps;
      Drop();
    }

    /** `write_plane`: the first capacity + 2 words, guards included, as bytes. */
    method WritePlane(base: nat, ch: nat, words: seq<nat>) returns (ok: bool)
      requires Valid() && Legal(region.layout) && forall k :: 0 <= k < |words| ==> words[k] < Pow256(4)
      modifies region.bytes
      ensures ok <==> region.layout.capacity + 2 <= |words| <= BLOCK_CAP + 2
                      && Accessible(base + ch * region.layout.stride, region.layout.stride)
      ensures region.bytes[..] ==
                if ok then Planted(old(region.bytes[..]), base + ch * region.layout.stride,
                                   Flat(words[..region.layout.capacity + 2]))
                else old(region.bytes[..])
    {
      var l := region.layout;
      if !(l.capacity + 2 <= |words| <= BLOCK_CAP + 2) {
        return false;
      }
      StrideOf(l);
      ok := Write(base + ch * l.stride, Flat(words[..l.capacity + 2]));
    }

    /** `plane`: the plane's words, and zeros beyond them. */
    method ReadPlane(base: nat, ch: nat, n: nat) returns (r: Option<seq<nat>>)
      requires Valid() && Legal(region.layout)
      ensures r.Some? <==> region.layout.capacity + 2 <= n <= BLOCK_CAP + 2
                           && Accessible(base + ch * region.layout.stride, region.layout.stride)
      ensures r.Some? ==> |r.value| == n && IsPlane(r.value, region.bytes[..], base + ch * region.layout.stride,
                                                    region.layout)
    {
      var l := region.layout;
      if !(l.capacity + 2 <= n <= BLOCK_CAP + 2) {
        return None;
      }
      StrideOf(l);
      var b := Read(base + ch * l.stride, l.stride);
      if b.None? {
        return None;
      }
      var words := seq(n, i requires 0 <= i < n => if i < l.capacity + 2 then WordAt(b.value, i) else 0);
      return Some(words);
    }
  }

  lemma StrideOf(l: Layout)
    requires Legal(l)
    ensures l.stride == 4 * (l.capacity + 2) && l.capacity <= BLOCK_CAP
  {
  }

  /** Bytes set at an offset; the rest as before. */
  ghost function Planted(b: seq<byte>, offset: nat, data: seq<byte>): (r: seq<byte>)
    requires offset + |data| <= |b|
    ensures |r| == |b|
  {
    b[..offset] + data + b[offset + |data|..]
  }

  /** These words are what a plane's bytes hold, followed by zeros. */
  ghost predicate IsPlane(words: seq<nat>, b: seq<byte>, offset: nat, l: Layout)
    requires offset + l.stride <= |b| && l.stride == 4 * (l.capacity + 2)
  {
    forall i :: 0 <= i < |words| ==>
      words[i] == if i < l.capacity + 2 then WordAt(b[offset..offset + l.stride], i) else 0
  }

  /** Writing a plane and reading it gives the words back. */
  lemma PlaneRoundTrip(l: Layout, b: seq<byte>, p: Plane, words: seq<nat>, read: seq<nat>)
    requires Legal(l) && Exists(l, p) && |b| == Size(l) && l.stride == 4 * (l.capacity + 2)
             && Offset(l, p) + l.stride <= Size(l)
    requires |words| == l.capacity + 2 && forall k :: 0 <= k < |words| ==> words[k] < Pow256(4)
    requires |read| >= l.capacity + 2 && IsPlane(read, Planted(b, Offset(l, p), Flat(words)), Offset(l, p), l)
    ensures read[..l.capacity + 2] == words
  {
    var after := Planted(b, Offset(l, p), Flat(words));
    assert after[Offset(l, p)..Offset(l, p) + l.stride] == Flat(words);
    forall i | 0 <= i < |words| ensures read[i] == words[i] {
      FlatWord(words, i);
    }
  }

  /** Every other plane, with its guards, and the header keep their bytes. */
  lemma OtherPlanesUnchanged(l: Layout, b: seq<byte>, p: Plane, data: seq<byte>, q: Plane)
    requires Legal(l) && Exists(l, p) && Exists(l, q) && q != p && |b| == Size(l) && |data| == l.stride
    ensures Offset(l, p) + l.stride <= |b| && Offset(l, q) + l.stride <= |b|
    ensures Planted(b, Offset(l, p), data)[Offset(l, q)..Offset(l, q) + l.stride]
            == b[Offset(l, q)..Offset(l, q) + l.stride]
    ensures Planted(b, Offset(l, p), data)[..INPUT] == b[..INPUT]
  {
    PlanesAreApart(l, p, q);
    Kept(b, Offset(l, p), data, Offset(l, q), l.stride);
    Kept(b, Offset(l, p), data, 0, INPUT);
  }

  /** The first and the last word of the plane are guards. */
  ghost predicate Guarded(b: seq<byte>, l: Layout, p: Plane) {
    && Offset(l, p) + l.stride <= |b| && l.stride == 4 * (l.capacity + 2)
    && WordAt(b[Offset(l, p)..Offset(l, p) + l.stride], 0) == GUARD
    && WordAt(b[Offset(l, p)..Offset(l, p) + l.stride], l.capacity + 1) == GUARD
  }

  lemma Set(b: seq<byte>, offset: nat, data: seq<byte>)
    requires offset + |data| <= |b|
    ensures Planted(b, offset, data)[offset..offset + |data|] == data
  {
  }

  /** Two words planted at the ends of a stretch are the words at its ends. */
  lemma EndsSet(b0: seq<byte>, b1: seq<byte>, b2: seq<byte>, at: nat, last: nat, g: seq<byte>)
    requires |g| == 4 <= last && at + last + 4 <= |b0| && b1 == Planted(b0, at, g) && b2 == Planted(b1, at + last, g)
    ensures b2[at..at + last + 4][0..4] == g && b2[at..at + last + 4][last..last + 4] == g
  {
    Set(b0, at, g);
    Kept(b1, at + last, g, at, 4);
    Set(b1, at + last, g);
    SliceOfSlice(b2, at, at + last + 4, 0, 4);
    SliceOfSlice(b2, at, at + last + 4, last, last + 4);
  }

  lemma GuardsSet(l: Layout, b0: seq<byte>, b1: seq<byte>, b2: seq<byte>, p: Plane)
    requires |b0| == Size(l) && l.stride == 4 * (l.capacity + 2) && Offset(l, p) + l.stride <= |b0|
    requires b1 == Planted(b0, Offset(l, p), Put(GUARD, 4))
             && b2 == Planted(b1, Offset(l, p) + (l.capacity + 1) * 4, Put(GUARD, 4))
    ensures Guarded(b2, l, p)
  {
    Widths();
    GetPut(GUARD, 4);
    EndsSet(b0, b1, b2, Offset(l, p), (l.capacity + 1) * 4, Put(GUARD, 4));
  }

  lemma OthersKeepGuards(l: Layout, b0: seq<byte>, b1: seq<byte>, b2: seq<byte>, p: Plane, q: Plane)
    requires Legal(l) && Exists(l, p) && Exists(l, q) && q != p && Guarded(b0, l, q) && |b0| == Size(l)
    requires Offset(l, p) + l.stride <= |b0|
    requires b1 == Planted(b0, Offset(l, p), Put(GUARD, 4))
             && b2 == Planted(b1, Offset(l, p) + (l.capacity + 1) * 4, Put(GUARD, 4))
    ensures Guarded(b2, l, q)
  {
    PlanesAreApart(l, p, q);
    KeptTwice(b0, b1, b2, Offset(l, p), (l.capacity + 1) * 4, Put(GUARD, 4), Offset(l, q), l.stride);
  }

  lemma KeptTwice(b0: seq<byte>, b1: seq<byte>, b2: seq<byte>, at: nat, last: nat, g: seq<byte>, from: nat, n: nat)
    requires |g| == 4 && at + last + 4 <= |b0| && b1 == Planted(b0, at, g) && b2 == Planted(b1, at + last, g)
    requires from + n <= |b0| && (from + n <= at || at + last + 4 <= from)
    ensures b2[from..from + n] == b0[from..from + n]
  {
    Kept(b0, at, g, from, n);
    Kept(b1, at + last, g, from, n);
  }

  lemma Kept(b: seq<byte>, offset: nat, data: seq<byte>, from: nat, n: nat)
    requires offset + |data| <= |b| && from + n <= |b| && (from + n <= offset || offset + |data| <= from)
    ensures Planted(b, offset, data)[from..from + n] == b[from..from + n]
  {
    assert forall k :: from <= k < from + n ==> Planted(b, offset, data)[k] == b[k];
  }

  /** Of all living views, the only one that reaches a sample is one and the same. */
  lemma OneSampleOwner(region: Region, u: View, v: View, offset: nat, length: nat)
    requires region.Valid() && u in region.views && v in region.views
    requires offset + length > INPUT && u.Accessible(offset, length) && v.Accessible(offset, length)
    ensures u == v
  {
  }

  // ------------------------------------------------------------- any run

  /** What any holder of a view may do next; `at` says which view. */
  datatype Move = Transfer(at: nat, mapped: bool) | Drop(at: nat) | Close(at: nat, unmaps: bool)

  /** From creation on, through transfers that succeed, are refused or fail, drops and closes
      in any order: at no time do two views reach the samples. */
  method Run(layout: Layout, moves: seq<Move>) returns (region: Region)
    requires Legal(layout)
    ensures region.Valid()
  {
    region := new Region(layout);
    var first := new View(region, false);
    region.views := {first};
    var views: seq<View> := [first];
    var i := 0;
    while i < |moves|
      invariant 0 <= i <= |moves| && region.Valid() && fresh(region) && fresh(region.views)
      invariant (forall k :: 0 <= k < |views| ==> views[k] in region.views)
                && (forall j, k :: 0 <= j < k < |views| ==> views[j] != views[k])
    {
      var m := moves[i];
      if m.at < |views| {
        var v := views[m.at];
        match m {
          case Transfer(_, mapped) =>
            var audio := v.TransferAudio(mapped);
            if audio != null {
              views := views + [audio];
            }
          case Drop(at) =>
            v.Drop();
            views := views[..at] + views[at + 1..];
          case Close(at, unmaps) =>
            var ok := v.Close(unmaps);
            views := views[..at] + views[at + 1..];
        }
      }
      i := i + 1;
    }
  }
}

/**
 The versioned control frame (native-audio-client/src/lib.rs): a 56-byte header
 of little-endian fields, then the payload.
 */
module Wire {
  import opened Bytes

  const HEADER := 56
  const MAGIC := 0x3141504c
  const STATE_LIMIT := 256 * 1024 * 1024
  const CAP := 256
  const STRIDE := 1032
  const INPUT := 64
  const OUTPUT := 2128
  const MULTI_CHANNELS := 64
  const BLOCK_CAP := 1024
  const BLOCK_STRIDE := 4104
  const BLOCK_OUTPUT := 8272
  const GUARD := 0x4b123456
  const PROCESS := 3
  const DONE := 4
  const CLOSE := 5
  const CLOSED := 6

  datatype RawFrame = Frame(kind: nat, session: seq<byte>, sequence: nat, payload: seq<byte>)

  /** A frame with the widths of its Rust fields: u16, [u8; 16], u64. */
  type Frame = f: RawFrame | f.kind < 0x1_0000 && |f.session| == 16 && f.sequence < 0x1_0000_0000_0000_0000
    witness RawFrame.Frame(0, Zeros(16), 0, [])

  function MaxKind(minor: nat): nat {
    if minor >= 6 then 21 else if minor >= 4 then 19 else if minor >= 2 then 15 else 7
  }

  function PayloadLimit(minor: nat, kind: nat): nat {
    if minor >= 4 && 17 <= kind <= 19 then STATE_LIMIT
    else if minor >= 9 && kind == DONE then 10312
    else if (minor == 5 || 7 <= minor <= 15) && kind == PROCESS then
      if minor >= 15 then 8360 else if minor >= 10 then 8352 else if minor >= 8 then 8344 else 8248
    else 4040
  }

  predicate Encodable(f: Frame, minor: nat) {
    1 <= f.kind <= MaxKind(minor) && 1 <= minor <= 15 && |f.payload| <= PayloadLimit(minor, f.kind)
  }

  function Header(f: Frame, minor: nat): (h: seq<byte>)
    ensures |h| == HEADER
  {
    HeaderStart(f, minor) + f.session + HeaderEnd(f)
  }

  function HeaderStart(f: Frame, minor: nat): (h: seq<byte>)
    ensures |h| == 16
  {
    Put(MAGIC, 4) + Put(1, 2) + Put(minor, 2) + Put(f.kind, 2) + Zeros(2) + Put(|f.payload|, 4)
  }

  function HeaderEnd(f: Frame): (h: seq<byte>)
    ensures |h| == 24
  {
    Put(1, 8) + Put(f.sequence, 8) + Zeros(8)
  }

  function Encode(f: Frame, minor: nat): Result<seq<byte>> {
    if Encodable(f, minor) then Ok(Header(f, minor) + f.payload) else Err("frame kind/length")
  }

  /** `payload_length_version`: admit a header and name the payload it announces. */
  function PayloadLength(b: seq<byte>, minor: nat): Result<nat> {
    if !(|b| == HEADER && Get(b[0..4]) == MAGIC && Get(b[4..6]) == 1 && Get(b[6..8]) == minor
         && 1 <= minor <= 15 && Get(b[10..12]) == 0)
    then Err("protocol version/header")
    else if !(1 <= Get(b[8..10]) <= MaxKind(minor) && Get(b[32..40]) == 1 && Get(b[48..56]) == 0)
    then Err("kind/instance/parent")
    else if Get(b[12..16]) > PayloadLimit(minor, Get(b[8..10])) then Err("frame length")
    else Ok(Get(b[12..16]))
  }

  function FrameOf(header: seq<byte>, payload: seq<byte>): Frame
    requires |header| == HEADER
  {
    Widths();
    Frame(Get(header[8..10]), header[16..32], Get(header[40..48]), payload)
  }

  function Decode(b: seq<byte>, minor: nat): Result<Frame> {
    if |b| < HEADER then Err("truncated header")
    else
      var n :- PayloadLength(b[..HEADER], minor);
      if |b| != HEADER + n then Err("truncated/extra payload")
      else Ok(FrameOf(b[..HEADER], b[HEADER..]))
  }

  // ------------------------------------------------------------ bijection

  lemma HeaderFields(f: Frame, minor: nat)
    ensures var h := Header(f, minor);
            && h[0..4] == Put(MAGIC, 4) && h[4..6] == Put(1, 2) && h[6..8] == Put(minor, 2)
            && h[8..10] == Put(f.kind, 2) && h[10..12] == Zeros(2) && h[12..16] == Put(|f.payload|, 4)
            && h[16..32] == f.session && h[32..40] == Put(1, 8) && h[40..48] == Put(f.sequence, 8)
            && h[48..56] == Zeros(8)
  {
    var h := Header(f, minor);
    assert h[..16] == HeaderStart(f, minor) && h[32..] == HeaderEnd(f);
    StartFields(h, Put(MAGIC, 4), Put(1, 2), Put(minor, 2), Put(f.kind, 2), Zeros(2), Put(|f.payload|, 4));
    EndFields(h, Put(1, 8), Put(f.sequence, 8), Zeros(8));
  }

  /** Slicing a header at its field boundaries inverts concatenating the fields. */
  lemma StartFields(s: seq<byte>, a: seq<byte>, b: seq<byte>, c: seq<byte>, d: seq<byte>, e: seq<byte>, f: seq<byte>)
    requires |s| == HEADER && |a| == 4 && |b| == |c| == |d| == |e| == 2 && |f| == 4
    ensures s[..16] == a + b + c + d + e + f <==>
            s[0..4] == a && s[4..6] == b && s[6..8] == c && s[8..10] == d && s[10..12] == e && s[12..16] == f
  {
    var t := a + b + c + d + e + f;
    assert t[0..4] == a && t[4..6] == b && t[6..8] == c && t[8..10] == d && t[10..12] == e && t[12..16] == f;
    assert s[..16] == s[0..4] + s[4..6] + s[6..8] + s[8..10] + s[10..12] + s[12..16];
    if s[..16] == t {
      assert s[0..4] == t[0..4] && s[4..6] == t[4..6] && s[6..8] == t[6..8];
      assert s[8..10] == t[8..10] && s[10..12] == t[10..12] && s[12..16] == t[12..16];
    }
  }

  lemma EndFields(s: seq<byte>, a: seq<byte>, b: seq<byte>, c: seq<byte>)
    requires |s| == HEADER && |a| == |b| == |c| == 8
    ensures s[32..] == a + b + c <==> s[32..40] == a && s[40..48] == b && s[48..56] == c
  {
    var t := a + b + c;
    assert t[0..8] == a && t[8..16] == b && t[16..24] == c;
    assert s[32..] == s[32..40] + s[40..48] + s[48..56];
    if s[32..] == t {
      assert s[32..40] == t[0..8] && s[40..48] == t[8..16] && s[48..56] == t[16..24];
    }
  }

  lemma HeaderReadsBack(f: Frame, minor: nat)
    requires Encodable(f, minor)
    ensures PayloadLength(Header(f, minor), minor) == Ok(|f.payload|)
    ensures FrameOf(Header(f, minor), f.payload) == f
  {
    Widths();
    HeaderFields(f, minor);
    GetPut(MAGIC, 4);
    GetPut(1, 2);
    GetPut(minor, 2);
    GetPut(f.kind, 2);
    GetPut(|f.payload|, 4);
    GetPut(1, 8);
    GetPut(f.sequence, 8);
    PutZero(2);
    PutZero(8);
    GetPut(0, 2);
    GetPut(0, 8);
  }

  /** Every encodable frame decodes to itself. */
  lemma DecodeEncode(f: Frame, minor: nat)
    requires Encodable(f, minor)
    ensures Decode(Encode(f, minor).value, minor) == Ok(f)
  {
    HeaderReadsBack(f, minor);
    var b := Header(f, minor) + f.payload;
    assert b[..HEADER] == Header(f, minor) && b[HEADER..] == f.payload;
  }

  /** What a minor lets through, by when each kind and each larger payload came in. */
  lemma EncodableExactly(f: Frame, minor: nat)
    ensures Encode(f, minor).Ok? <==>
              && 1 <= minor <= 15
              && (1 <= f.kind <= 7 || (8 <= f.kind <= 15 && minor >= 2) || (16 <= f.kind <= 19 && minor >= 4)
                  || (20 <= f.kind <= 21 && minor >= 6))
              && (|f.payload| <= 4040
                  || (17 <= f.kind <= 19 && minor >= 4 && |f.payload| <= 0x1000_0000)
                  || (f.kind == DONE && minor >= 9 && |f.payload| <= 10312)
                  || (f.kind == PROCESS && minor >= 5 && minor != 6 && |f.payload| <= 8248)
                  || (f.kind == PROCESS && minor >= 8 && |f.payload| <= 8344)
                  || (f.kind == PROCESS && minor >= 10 && |f.payload| <= 8352)
                  || (f.kind == PROCESS && minor >= 15 && |f.payload| <= 8360))
  {
  }

  /** Where everything stands in an encoded frame. */
  lemma EncodedBytes(f: Frame, minor: nat)
    requires Encodable(f, minor)
    ensures var b := Encode(f, minor).value;
            && |b| == 56 + |f.payload| && b[0..4] == [0x4c, 0x50, 0x41, 0x31] && b[4..6] == [1, 0]
            && Get(b[6..8]) == minor && Get(b[8..10]) == f.kind && b[10..12] == [0, 0]
            && Get(b[12..16]) == |f.payload| && b[16..32] == f.session && b[32..40] == [1, 0, 0, 0, 0, 0, 0, 0]
            && Get(b[40..48]) == f.sequence && b[48..56] == [0, 0, 0, 0, 0, 0, 0, 0] && b[56..] == f.payload
  {
    HeaderFields(f, minor);
    Stamps();
    Widths();
    GetPut(minor, 2);
    GetPut(f.kind, 2);
    GetPut(|f.payload|, 4);
    GetPut(f.sequence, 8);
    InFront(Header(f, minor), f.payload);
  }

  lemma Stamps()
    ensures Put(MAGIC, 4) == [0x4c, 0x50, 0x41, 0x31] && Put(1, 2) == [1, 0] && Put(1, 8) == [1, 0, 0, 0, 0, 0, 0, 0]
  {
    assert Put(0x314150, 3) == [0x50, 0x41, 0x31] by {
      assert Put(0x3141, 2) == [0x41, 0x31];
    }
    assert Put(1, 8) == [1] + Put(0, 7) && Put(1, 2) == [1] + Put(0, 1);
    PutZero(7);
    PutZero(1);
  }

  lemma InFront(h: seq<byte>, payload: seq<byte>)
    requires |h| == HEADER
    ensures var b := h + payload;
            && b[0..4] == h[0..4] && b[4..6] == h[4..6] && b[6..8] == h[6..8] && b[8..10] == h[8..10]
            && b[10..12] == h[10..12] && b[12..16] == h[12..16] && b[16..32] == h[16..32] && b[32..40] == h[32..40]
            && b[40..48] == h[40..48] && b[48..56] == h[48..56] && b[56..] == payload
  {
  }

  lemma FieldBytes(b: seq<byte>, lo: nat, hi: nat, v: nat)
    requires lo <= hi <= |b| && Get(b[lo..hi]) == v
    ensures b[lo..hi] == Put(v, hi - lo)
  {
    PutGet(b[lo..hi]);
  }

  /** A header is determined by the fields that decoding reads and checks. */
  lemma AcceptedHeader(b: seq<byte>, minor: nat, f: Frame)
    requires PayloadLength(b, minor).Ok? && |f.payload| == PayloadLength(b, minor).value
    requires f == FrameOf(b, f.payload)
    ensures Header(f, minor) == b
  {
    AcceptedStart(b, minor, f);
    AcceptedEnd(b, minor, f);
    assert b == b[..16] + b[16..32] + b[32..];
  }

  lemma AcceptedStart(b: seq<byte>, minor: nat, f: Frame)
    requires PayloadLength(b, minor).Ok? && |f.payload| == PayloadLength(b, minor).value
    requires f == FrameOf(b, f.payload)
    ensures HeaderStart(f, minor) == b[..16]
  {
    FieldBytes(b, 0, 4, MAGIC);
    FieldBytes(b, 4, 6, 1);
    FieldBytes(b, 6, 8, minor);
    FieldBytes(b, 8, 10, f.kind);
    FieldBytes(b, 10, 12, 0);
    FieldBytes(b, 12, 16, |f.payload|);
    PutZero(2);
    StartFields(b, Put(MAGIC, 4), Put(1, 2), Put(minor, 2), Put(f.kind, 2), Zeros(2), Put(|f.payload|, 4));
  }

  lemma AcceptedEnd(b: seq<byte>, minor: nat, f: Frame)
    requires PayloadLength(b, minor).Ok? && f == FrameOf(b, f.payload)
    ensures HeaderEnd(f) == b[32..]
  {
    FieldBytes(b, 32, 40, 1);
    FieldBytes(b, 40, 48, f.sequence);
    FieldBytes(b, 48, 56, 0);
    PutZero(8);
    EndFields(b, Put(1, 8), Put(f.sequence, 8), Zeros(8));
  }

  /** Accepted bytes are exactly the encoding of what they decode to, so a byte
      string is accepted if and only if some encodable frame produces it. */
  lemma EncodeDecode(b: seq<byte>, minor: nat)
    ensures Decode(b, minor).Ok? ==> Encode(Decode(b, minor).value, minor) == Ok(b)
    ensures Decode(b, minor).Ok? <==> exists f: Frame :: Encode(f, minor) == Ok(b)
  {
    if Decode(b, minor).Ok? {
      var f := Decode(b, minor).value;
      AcceptedHeader(b[..HEADER], minor, f);
      assert b == b[..HEADER] + b[HEADER..];
      assert Encode(f, minor) == Ok(b);
    }
    forall f: Frame | Encode(f, minor) == Ok(b)
      ensures Decode(b, minor).Ok?
    {
      DecodeEncode(f, minor);
    }
  }

  // -------------------------------------------------------------- streams

  /** `read_frame_version` over the bytes a peer sends before it closes. */
  datatype ReadOutcome = Read(frame: Frame, used: nat) | Refused | Ended

  function ReadFrame(s: seq<byte>, minor: nat): (r: ReadOutcome)
    ensures r.Read? ==> HEADER <= r.used <= |s|
  {
    if |s| < HEADER then Ended
    else match PayloadLength(s[..HEADER], minor)
      case Err(_) => Refused
      case Ok(n) =>
        if |s| < HEADER + n then Ended
        else match Decode(s[..HEADER + n], minor)
          case Err(_) => Refused
          case Ok(f) => Read(f, HEADER + n)
  }

  /** Once its header is admitted a frame cannot be refused any more. */
  lemma ReadComplete(s: seq<byte>, minor: nat)
    requires |s| >= HEADER && PayloadLength(s[..HEADER], minor).Ok?
    requires |s| >= HEADER + PayloadLength(s[..HEADER], minor).value
    ensures var n := PayloadLength(s[..HEADER], minor).value;
            ReadFrame(s, minor) == Read(FrameOf(s[..HEADER], s[HEADER..HEADER + n]), HEADER + n)
  {
    var n := PayloadLength(s[..HEADER], minor).value;
    assert s[..HEADER + n][..HEADER] == s[..HEADER];
    assert s[..HEADER + n][HEADER..] == s[HEADER..HEADER + n];
  }

  function EncodeAll(fs: seq<Frame>, minor: nat): seq<byte>
    requires forall f :: f in fs ==> Encodable(f, minor)
  {
    if fs == [] then [] else Encode(fs[0], minor).value + EncodeAll(fs[1..], minor)
  }

  /** Read frames until the stream ends or one is refused. */
  function ReadAll(s: seq<byte>, minor: nat): seq<Frame>
    decreases |s|
  {
    match ReadFrame(s, minor)
    case Read(f, used) => [f] + ReadAll(s[used..], minor)
    case _ => []
  }

  /** A stream that begins with an encoded frame yields that frame and leaves the rest. */
  lemma ReadFirst(f: Frame, minor: nat, rest: seq<byte>)
    requires Encodable(f, minor)
    ensures ReadFrame(Encode(f, minor).value + rest, minor) == Read(f, HEADER + |f.payload|)
    ensures (Encode(f, minor).value + rest)[HEADER + |f.payload|..] == rest
  {
    HeaderReadsBack(f, minor);
    var s := Encode(f, minor).value + rest;
    assert s[..HEADER] == Header(f, minor) && s[HEADER..HEADER + |f.payload|] == f.payload;
    ReadComplete(s, minor);
  }

  /** Any concatenation of encoded frames is read back as exactly that list. */
  lemma {:induction false} ReadAllEncodeAll(fs: seq<Frame>, minor: nat)
    requires forall f :: f in fs ==> Encodable(f, minor)
    ensures ReadAll(EncodeAll(fs, minor), minor) == fs
  {
    if fs != [] {
      ReadFirst(fs[0], minor, EncodeAll(fs[1..], minor));
      ReadAllEncodeAll(fs[1..], minor);
    }
  }

  // ----------------------------------------------------- filling a buffer

  /** `encode_version_into`: size the buffer, then write each field in place. */
  method EncodeInto(f: Frame, minor: nat) returns (r: Result<seq<byte>>)
    ensures r == Encode(f, minor)
  {
    if !Encodable(f, minor) {
      return Err("frame kind/length");
    }
    var size := HEADER + |f.payload|;
    var b := new byte[size](_ => 0);
    assert b[..] == Zeros(size);
    WriteStart(b, f, minor);
    CopyInto(b, 16, f.session);
    assert b[..] == (HeaderStart(f, minor) + f.session) + Zeros(size - 32);
    WriteEnd(b, f, HeaderStart(f, minor) + f.session);
    CopyInto(b, 56, f.payload);
    assert b[..] == Header(f, minor) + f.payload;
    return Ok(b[..]);
  }

  method WriteStart(b: array<byte>, f: Frame, minor: nat)
    requires b.Length >= HEADER && b[..] == Zeros(b.Length)
    modifies b
    ensures b[..] == HeaderStart(f, minor) + Zeros(b.Length - 16)
  {
    WriteStamp(b, minor);
    ghost var done := Put(MAGIC, 4) + Put(1, 2) + Put(minor, 2);
    WriteField(b, 8, done, 2, f.kind);
    done := done + Put(f.kind, 2);
    SkipZeros(b[..], done, 2);
    WriteField(b, 12, done + Zeros(2), 4, |f.payload|);
  }

  method WriteStamp(b: array<byte>, minor: nat)
    requires b.Length >= HEADER && b[..] == Zeros(b.Length)
    modifies b
    ensures b[..] == Put(MAGIC, 4) + Put(1, 2) + Put(minor, 2) + Zeros(b.Length - 8)
  {
    assert b[..] == [] + Zeros(b.Length);
    WriteField(b, 0, [], 4, MAGIC);
    assert [] + Put(MAGIC, 4) == Put(MAGIC, 4);
    WriteField(b, 4, Put(MAGIC, 4), 2, 1);
    WriteField(b, 6, Put(MAGIC, 4) + Put(1, 2), 2, minor);
  }

  lemma SkipZeros(s: seq<byte>, done: seq<byte>, n: nat)
    requires |done| + n <= |s| && s == done + Zeros(|s| - |done|)
    ensures s == done + Zeros(n) + Zeros(|s| - |done| - n)
  {
  }

  method WriteEnd(b: array<byte>, f: Frame, ghost done: seq<byte>)
    requires b.Length >= HEADER && |done| == 32 && b[..] == done + Zeros(b.Length - 32)
    modifies b
    ensures b[..] == done + HeaderEnd(f) + Zeros(b.Length - 56)
  {
    WriteField(b, 32, done, 8, 1);
    WriteField(b, 40, done + Put(1, 8), 8, f.sequence);
    SkipZeros(b[..], done + Put(1, 8) + Put(f.sequence, 8), 8);
    assert done + Put(1, 8) + Put(f.sequence, 8) + Zeros(8) == done + HeaderEnd(f);
  }

  /** Put one field right after what is already written of a zeroed buffer. */
  method WriteField(b: array<byte>, from: nat, ghost done: seq<byte>, n: nat, v: nat)
    requires |done| == from && from + n <= b.Length && b[..] == done + Zeros(b.Length - |done|)
    modifies b
    ensures b[..] == done + Put(v, n) + Zeros(b.Length - |done| - n)
  {
    PutInto(b, from, n, v);
    assert old(b[..|done|]) == done && old(b[|done| + n..]) == Zeros(b.Length - |done| - n);
  }
}

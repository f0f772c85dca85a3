/**
 Manager admission replies (native-audio-client/src/admission.rs): a 24-byte header bound to
 the request, then nothing, or the binding of an accepted session.
 */
module Admission {
  import opened Bytes

  const HEADER := 24
  const MAX_REPLY := 1024

  datatype Refusal =
    | ServiceBusy | GlobalCapacity | ClassCapacity | NativeImageCapacity
    | CleanupUnconfirmed | MaintenanceActive | BindingInvalid | StaleNativeCaller

  function Code(r: Refusal): (c: byte)
    ensures 1 <= c <= 8
  {
    match r
    case ServiceBusy => 1
    case GlobalCapacity => 2
    case ClassCapacity => 3
    case NativeImageCapacity => 4
    case CleanupUnconfirmed => 5
    case MaintenanceActive => 6
    case BindingInvalid => 7
    case StaleNativeCaller => 8
  }

  function RefusalOf(c: byte): (r: Result<Refusal>)
    ensures forall reason :: r == Ok(reason) <==> c == Code(reason)
  {
    if c == 1 then Ok(ServiceBusy)
    else if c == 2 then Ok(GlobalCapacity)
    else if c == 3 then Ok(ClassCapacity)
    else if c == 4 then Ok(NativeImageCapacity)
    else if c == 5 then Ok(CleanupUnconfirmed)
    else if c == 6 then Ok(MaintenanceActive)
    else if c == 7 then Ok(BindingInvalid)
    else if c == 8 then Ok(StaleNativeCaller)
    else Err("admission refusal encoding")
  }

  /** A directory is text; which bytes are text is a parameter. */
  datatype Binding = Binding(session: seq<byte>, addedFrames: nat, deliveryMode: nat, directory: seq<byte>)

  datatype Reply = Accepted(binding: Binding) | Refused(reason: Refusal)

  /** The version byte is the digit '3', '4' or '5'; from '4' on the delivery mode is stated. */
  datatype Version = V3 | V4 | V5

  function Digit(v: Version): byte {
    match v case V3 => 51 case V4 => 52 case V5 => 53
  }

  predicate Explicit(v: Version) {
    v != V3
  }

  function Header(request: seq<byte>, code: byte, v: Version): (h: seq<byte>)
    requires |request| == 16
    ensures |h| == HEADER
  {
    [76, 86, 82, Digit(v), code, 0, 0, 0] + request
  }

  /** `refused`, `refused_v4` and `refused_v5`. */
  function RefusedBytes(request: seq<byte>, reason: Refusal, v: Version): (b: seq<byte>)
    requires |request| == 16
    ensures |b| == HEADER
  {
    Header(request, Code(reason), v)
  }

  predicate Encodable(request: seq<byte>, b: Binding, v: Version) {
    && b.deliveryMode <= 1 && request != Zeros(16) && b.session != Zeros(16) && b.addedFrames in {256, 512, 1024}
    && b.directory != [] && b.directory[0] == 47 && 0 !in b.directory && 10 !in b.directory
    && HEADER + 20 + (if Explicit(v) then 4 else 0) + |b.directory| <= MAX_REPLY
  }

  function Body(b: Binding, v: Version): seq<byte> {
    b.session + Put(b.addedFrames, 4) + (if Explicit(v) then Put(b.deliveryMode, 4) else []) + b.directory
  }

  /** `encode`. */
  function Encode(request: seq<byte>, b: Binding, v: Version): Result<seq<byte>>
    requires |request| == 16 && |b.session| == 16
  {
    if !Encodable(request, b, v) then Err("admission binding") else Ok(Header(request, 0, v) + Body(b, v))
  }

  /** `accepted`, `accepted_v4` and `accepted_v5`: the oldest form has no delivery mode to state. */
  function AcceptedBytes(request: seq<byte>, b: Binding, v: Version): Result<seq<byte>>
    requires |request| == 16 && |b.session| == 16
  {
    if v == V3 && b.deliveryMode != 0 then Err("legacy admission supports buffered delivery only")
        else Encode(request, b, v)
  }

  /** The binding the bytes after the header seem to hold. */
  function BindingAt(bytes: seq<byte>, v: Version): (b: Binding)
    requires |bytes| > if Explicit(v) then 48 else 44
    ensures |b.session| == 16
  {
    Binding(bytes[24..40], Get(bytes[40..44]), if Explicit(v) then Get(bytes[44..48]) else 0,
            bytes[if Explicit(v) then 48 else 44..])
  }

  /** `decode_version`. */
  function DecodeVersion(text: seq<byte> -> bool, bytes: seq<byte>, request: seq<byte>, v: Version): Result<Reply>
    requires |request| == 16
  {
    if request == Zeros(16) then Err("admission request identity")
    else if |bytes| < HEADER || |bytes| > MAX_REPLY then Err("admission reply extent")
    else if bytes[..3] != [76, 86, 82] || bytes[3] != Digit(v) || bytes[5..8] != [0, 0, 0]
        then Err("admission reply version")
    else if !(bytes[4] == Code(ServiceBusy) && bytes[8..24] == Zeros(16)) && bytes[8..24] != request
        then Err("admission stale reply")
    else if bytes[4] != 0 then
      if |bytes| != HEADER then Err("admission refusal payload")
      else match RefusalOf(bytes[4]) case Ok(reason) => Ok(Refused(reason)) case Err(e) => Err(e)
    else if |bytes| <= (if Explicit(v) then 48 else 44) then Err("admission binding extent")
    else
      var b := BindingAt(bytes, v);
      if !text(b.directory) then Err("admission directory encoding")
      else if Encode(request, b, v) != Ok(bytes) then Err("admission binding encoding")
      else Ok(Accepted(b))
  }

  /** `decode`, `decode_v4` and `decode_v5`: the later two also take the oldest form of the
      busy refusal that answers no request. */
  function Decode(text: seq<byte> -> bool, bytes: seq<byte>, request: seq<byte>, v: Version): Result<Reply>
    requires |request| == 16
  {
    if Explicit(v) && bytes == RefusedBytes(Zeros(16), ServiceBusy, V3) then DecodeVersion(text, bytes, request, V3)
    else DecodeVersion(text, bytes, request, v)
  }

  // ------------------------------------------------------------ the codec

  lemma HeaderParts(request: seq<byte>, code: byte, v: Version, rest: seq<byte>)
    requires |request| == 16
    ensures var b := Header(request, code, v) + rest;
            && |b| == HEADER + |rest| && b[..3] == [76, 86, 82] && b[3] == Digit(v) && b[4] == code
               && b[5..8] == [0, 0, 0]
            && b[8..24] == request && b[24..] == rest
  {
  }

  lemma HeaderFrom(b: seq<byte>, v: Version)
    requires |b| >= HEADER && b[..3] == [76, 86, 82] && b[3] == Digit(v) && b[5..8] == [0, 0, 0]
    ensures b == Header(b[8..24], b[4], v) + b[24..]
  {
    assert b[0] == b[..3][0] && b[1] == b[..3][1] && b[2] == b[..3][2];
    assert b[5] == b[5..8][0] && b[6] == b[5..8][1] && b[7] == b[5..8][2];
    assert b[..8] == [76, 86, 82, Digit(v), b[4], 0, 0, 0];
    assert b == b[..8] + b[8..24] + b[24..];
  }

  lemma BodyParts(h: seq<byte>, session: seq<byte>, added: seq<byte>, mode: seq<byte>, directory: seq<byte>)
    requires |h| == 24 && |session| == 16 && |added| == 4
    ensures var b := h + (session + added + mode + directory);
            b[24..40] == session && b[40..44] == added && b[44..44 + |mode|] == mode && b[44 + |mode|..] == directory
  {
  }

  /** What an encoded binding seems to hold is what it was encoded from. */
  lemma BindingReadsBack(request: seq<byte>, b: Binding, v: Version)
    requires |request| == 16 && |b.session| == 16 && AcceptedBytes(request, b, v).Ok?
    ensures var bytes := Header(request, 0, v) + Body(b, v);
            |bytes| > (if Explicit(v) then 48 else 44) && BindingAt(bytes, v) == b
  {
    var mode := if Explicit(v) then Put(b.deliveryMode, 4) else [];
    BodyParts(Header(request, 0, v), b.session, Put(b.addedFrames, 4), mode, b.directory);
    Widths();
    GetPut(b.addedFrames, 4);
    GetPut(b.deliveryMode, 4);
  }

  /** Accepting: a reply decodes to a binding exactly when it is that binding's encoding, for
      this request and version. */
  lemma AcceptedIff(text: seq<byte> -> bool, bytes: seq<byte>, request: seq<byte>, v: Version, b: Binding)
    requires |request| == 16 && |b.session| == 16
    ensures Decode(text, bytes, request, v) == Ok(Accepted(b)) <==>
              text(b.directory) && AcceptedBytes(request, b, v) == Ok(bytes)
  {
    if AcceptedBytes(request, b, v) == Ok(bytes) {
      EncodedIsAccepted(text, bytes, request, v, b);
    }
    if Decode(text, bytes, request, v) == Ok(Accepted(b)) {
      assert RefusedBytes(Zeros(16), ServiceBusy, V3)[4] == 1;
    }
  }

  lemma EncodedIsAccepted(text: seq<byte> -> bool, bytes: seq<byte>, request: seq<byte>, v: Version, b: Binding)
    requires |request| == 16 && |b.session| == 16 && AcceptedBytes(request, b, v) == Ok(bytes)
    ensures Decode(text, bytes, request, v) == Ok(Accepted(b)) <==> text(b.directory)
  {
    HeaderParts(request, 0, v, Body(b, v));
    BindingReadsBack(request, b, v);
    assert RefusedBytes(Zeros(16), ServiceBusy, V3)[4] == 1;
  }

  /** The same by the bytes themselves: what a reply must be for this binding to be accepted. */
  lemma AcceptedBytesAre(text: seq<byte> -> bool, bytes: seq<byte>, request: seq<byte>, v: Version, b: Binding)
    requires |request| == 16 && |b.session| == 16
    ensures var at := if v == V3 then 44 else 48;
            Decode(text, bytes, request, v) == Ok(Accepted(b)) <==>
              && at < |bytes| <= 1024 && bytes[..3] == [76, 86, 82]
              && bytes[3] == (match v case V3 => 51 case V4 => 52 case V5 => 53)
              && bytes[4..8] == [0, 0, 0, 0] && bytes[8..24] == request && bytes[24..40] == b.session
              && Get(bytes[40..44]) == b.addedFrames && bytes[at..] == b.directory
              && (if v == V3 then b.deliveryMode == 0 else Get(bytes[44..48]) == b.deliveryMode <= 1)
              && request != Zeros(16) && b.session != Zeros(16)
              && (b.addedFrames == 256 || b.addedFrames == 512 || b.addedFrames == 1024)
              && b.directory[0] == 47 && (forall i :: 0 <= i < |b.directory| ==> b.directory[i] !in {0, 10})
              && text(b.directory)
  {
    AcceptedIff(text, bytes, request, v, b);
    if AcceptedBytes(request, b, v) == Ok(bytes) {
      HeaderParts(request, 0, v, Body(b, v));
      BindingReadsBack(request, b, v);
      assert bytes[4..8] == [bytes[4]] + bytes[5..8];
    }
    if && |bytes| > (if v == V3 then 44 else 48) && bytes[..3] == [76, 86, 82] && bytes[3] == Digit(v)
       && bytes[4..8] == [0, 0, 0, 0] && bytes[8..24] == request && BindingAt(bytes, v) == b {
      BytesFrom(bytes, v);
    }
  }

  /** Bytes with a header for acceptance are the header and the body of what they seem to hold. */
  lemma BytesFrom(bytes: seq<byte>, v: Version)
    requires |bytes| > (if Explicit(v) then 48 else 44) && bytes[..3] == [76, 86, 82] && bytes[3] == Digit(v)
    requires bytes[4..8] == [0, 0, 0, 0]
    ensures bytes == Header(bytes[8..24], 0, v) + Body(BindingAt(bytes, v), v)
  {
    assert bytes[4] == bytes[4..8][0] && bytes[5..8] == bytes[4..8][1..];
    HeaderFrom(bytes, v);
    PutGet(bytes[40..44]);
    if Explicit(v) {
      PutGet(bytes[44..48]);
      assert bytes[24..] == bytes[24..40] + bytes[40..44] + bytes[44..48] + bytes[48..];
    } else {
      assert bytes[24..] == bytes[24..40] + bytes[40..44] + bytes[44..];
    }
  }

  /** Refusing: a reply decodes to a refusal exactly when it is that refusal's encoding, for
      this request and version, or the busy refusal that answers no request. */
  lemma RefusedIff(text: seq<byte> -> bool, bytes: seq<byte>, request: seq<byte>, v: Version, reason: Refusal)
    requires |request| == 16
    ensures Decode(text, bytes, request, v) == Ok(Refused(reason)) <==>
              request != Zeros(16)
              && (bytes == RefusedBytes(request, reason, v)
                  || (reason == ServiceBusy
                      && (bytes == RefusedBytes(Zeros(16), reason, v) || bytes == RefusedBytes(Zeros(16), reason, V3))))
  {
    HeaderParts(request, Code(reason), v, []);
    HeaderParts(Zeros(16), Code(reason), v, []);
    HeaderParts(Zeros(16), Code(reason), V3, []);
    assert RefusedBytes(request, reason, v) + [] == RefusedBytes(request, reason, v);
    assert RefusedBytes(Zeros(16), reason, v) + [] == RefusedBytes(Zeros(16), reason, v);
    assert RefusedBytes(Zeros(16), reason, V3) + [] == RefusedBytes(Zeros(16), reason, V3);
    DecodedRefusal(text, bytes, request, v);
  }

  lemma DecodedRefusal(text: seq<byte> -> bool, bytes: seq<byte>, request: seq<byte>, v: Version)
    requires |request| == 16
    ensures var r := Decode(text, bytes, request, v);
            r.Ok? && r.value.Refused? ==>
              request != Zeros(16)
              && (bytes == RefusedBytes(request, r.value.reason, v)
                  || (r.value.reason == ServiceBusy
                      && (bytes == RefusedBytes(Zeros(16), ServiceBusy, v)
                          || bytes == RefusedBytes(Zeros(16), ServiceBusy, V3))))
  {
    var r := Decode(text, bytes, request, v);
    if r.Ok? && r.value.Refused? && bytes != RefusedBytes(Zeros(16), ServiceBusy, V3) {
      HeaderFrom(bytes, v);
      assert bytes[24..] == [];
      assert bytes == Header(bytes[8..24], bytes[4], v);
    }
  }

  /** An accepted binding is accepted for one request under one version only. */
  lemma BoundToItsRequest(text: seq<byte> -> bool, bytes: seq<byte>, request: seq<byte>, v: Version,
                          other: seq<byte>, w: Version)
    requires |request| == |other| == 16
    requires Decode(text, bytes, request, v).Ok? && Decode(text, bytes, request, v).value.Accepted?
    requires Decode(text, bytes, other, w).Ok?
    ensures other == request && w == v
  {
    var b := Decode(text, bytes, request, v).value.binding;
    assert RefusedBytes(Zeros(16), ServiceBusy, V3)[4] == 1;
    assert |b.session| == 16;
    AcceptedIff(text, bytes, request, v, b);
    HeaderParts(request, 0, v, Body(b, v));
  }

  /** The only reply two different requests can both take is the busy refusal with no request. */
  lemma OnlyBusyIsUnbound(text: seq<byte> -> bool, bytes: seq<byte>, request: seq<byte>, other: seq<byte>, v: Version)
    requires |request| == |other| == 16 && request != other
    requires Decode(text, bytes, request, v).Ok? && Decode(text, bytes, other, v).Ok?
    ensures bytes == RefusedBytes(Zeros(16), ServiceBusy, v) || bytes == RefusedBytes(Zeros(16), ServiceBusy, V3)
  {
    var r := Decode(text, bytes, request, v).value;
    if r.Accepted? {
      BoundToItsRequest(text, bytes, request, v, other, v);
    } else {
      DecodedRefusal(text, bytes, request, v);
      var s := Decode(text, bytes, other, v).value;
      if s.Accepted? {
        BoundToItsRequest(text, bytes, other, v, request, v);
      } else {
        DecodedRefusal(text, bytes, other, v);
        HeaderParts(request, Code(r.reason), v, []);
        HeaderParts(other, Code(s.reason), v, []);
        assert RefusedBytes(request, r.reason, v) + [] == RefusedBytes(request, r.reason, v);
        assert RefusedBytes(other, s.reason, v) + [] == RefusedBytes(other, s.reason, v);
      }
    }
  }
}

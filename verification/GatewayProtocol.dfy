/** The gateway-protocol crate: the 24-byte big-endian header, its encoder and its decoder. */
module GatewayProtocol {
  import opened Wrappers

  type Byte = b: int | 0 <= b < 0x100
  type U16 = n: int | 0 <= n < 0x1_0000
  type U32 = n: int | 0 <= n < 0x1_0000_0000

  const PROTOCOL_VERSION: Byte := 0x02
  const HEADER_LEN: nat := 24
  const ROOM_ID_LEN: nat := 6
  const USER_ID_LEN: nat := 8

  /** A wire id field has a fixed length; a trimmed id is any byte string. */
  type RoomField = f: seq<Byte> | |f| == ROOM_ID_LEN witness [0, 0, 0, 0, 0, 0]
  type UserField = f: seq<Byte> | |f| == USER_ID_LEN witness [0, 0, 0, 0, 0, 0, 0, 0]
  type Id = seq<Byte>
  type Frame = seq<Byte>

  datatype PacketType = RawMotion | AiEvent | SystemCmd | Heartbeat
  {
    function AsU8(): (v: Byte)
      ensures PacketTypeFromU8(v) == Some(this)
    {
      match this
      case RawMotion => 0x01
      case AiEvent => 0x02
      case SystemCmd => 0x03
      case Heartbeat => 0x04
    }
  }

  function PacketTypeFromU8(v: Byte): (t: Option<PacketType>)
    ensures t.Some? <==> 1 <= v <= 4
  {
    if v == 0x01 then Some(RawMotion)
    else if v == 0x02 then Some(AiEvent)
    else if v == 0x03 then Some(SystemCmd)
    else if v == 0x04 then Some(Heartbeat)
    else None
  }

  datatype TargetType = Broadcast | Unicast
  {
    function AsU8(): (v: Byte)
      ensures TargetTypeFromU8(v) == Some(this)
    {
      match this
      case Broadcast => 0x01
      case Unicast => 0x02
    }
  }

  function TargetTypeFromU8(v: Byte): (t: Option<TargetType>)
    ensures t.Some? <==> 1 <= v <= 2
  {
    if v == 0x01 then Some(Broadcast) else if v == 0x02 then Some(Unicast) else None
  }

  datatype PacketHeader = PacketHeader(
    version: Byte, packetType: PacketType, targetType: TargetType,
    roomId: RoomField, userId: UserField, sequence: U32, length: U16)
  {
    function RoomIdStr(): Id { AsciiFieldStr(roomId) }

    function UserIdStr(): Id { AsciiFieldStr(userId) }
  }

  datatype EncodeError = InvalidRoomId | InvalidUserId | PayloadTooLarge

  datatype DecodeError =
    | TooShort
    | UnsupportedVersion(version: Byte)
    | NonZeroReserved(reserved: Byte)
    | UnknownPacketType(packetType: Byte)
    | UnknownTargetType(targetType: Byte)
    | NonAsciiRoomId
    | NonAsciiUserId
    | LengthMismatch(declared: U16, actual: nat)

  // ---- id fields ----

  /** Index of the first zero byte at or after i, or the length when there is none. */
  function FirstZeroFrom(f: seq<Byte>, i: nat): (z: nat)
    requires i <= |f|
    ensures i <= z <= |f|
    ensures forall k :: i <= k < z ==> f[k] != 0
    ensures z < |f| ==> f[z] == 0
    decreases |f| - i
  {
    if i == |f| || f[i] == 0 then i else FirstZeroFrom(f, i + 1)
  }

  function FirstZero(f: seq<Byte>): (z: nat)
    ensures z <= |f|
  {
    FirstZeroFrom(f, 0)
  }

  predicate IsAscii(s: seq<Byte>) {
    forall i :: 0 <= i < |s| ==> s[i] < 0x80
  }

  predicate AllZero(s: seq<Byte>) {
    forall i :: 0 <= i < |s| ==> s[i] == 0
  }

  predicate IsValidAsciiField(f: seq<Byte>) {
    var z := FirstZero(f);
    IsAscii(f[..z]) && 0 !in f[..z] && AllZero(f[z..])
  }

  predicate Continuation(s: seq<Byte>, i: nat) {
    i < |s| && 0x80 <= s[i] < 0xC0
  }

  /** Well-formed UTF-8 from index i on, section 4 of RFC 3629. */
  predicate ValidUtf8(s: seq<Byte>, i: nat)
    decreases |s| - i
  {
    if |s| <= i then true
    else if s[i] < 0x80 then ValidUtf8(s, i + 1)
    else if 0xC2 <= s[i] < 0xE0 then Continuation(s, i + 1) && ValidUtf8(s, i + 2)
    else if 0xE0 <= s[i] < 0xF0 then
      && Continuation(s, i + 1) && Continuation(s, i + 2)
      && (s[i] == 0xE0 ==> 0xA0 <= s[i + 1]) && (s[i] == 0xED ==> s[i + 1] < 0xA0)
      && ValidUtf8(s, i + 3)
    else if 0xF0 <= s[i] < 0xF5 then
      && Continuation(s, i + 1) && Continuation(s, i + 2) && Continuation(s, i + 3)
      && (s[i] == 0xF0 ==> 0x90 <= s[i + 1]) && (s[i] == 0xF4 ==> s[i + 1] < 0x90)
      && ValidUtf8(s, i + 4)
    else false
  }

  function AsciiFieldStr(f: seq<Byte>): Id {
    var data := f[..FirstZero(f)];
    if ValidUtf8(data, 0) then data else []
  }

  function Zeros(n: nat): (z: seq<Byte>)
    ensures |z| == n && forall i :: 0 <= i < n ==> z[i] == 0
  {
    seq(n, _ => 0)
  }

  /** What a packed field holds: the string, zero-filled on the right; nothing when it does not fit. */
  function PackedField(s: Id, n: nat): (r: Option<seq<Byte>>)
    ensures r.Some? ==> |r.value| == n
  {
    if !IsAscii(s) || |s| > n then None else Some(s + Zeros(n - |s|))
  }

  /** The crate's packing loop: a zeroed buffer of n bytes, its front overwritten by the string. */
  method PackAsciiField(s: Id, n: nat) returns (ok: bool, buf: array<Byte>)
    ensures ok <==> PackedField(s, n).Some?
    ensures fresh(buf) && (ok ==> buf[..] == PackedField(s, n).value)
  {
    ok := IsAscii(s) && |s| <= n;
    buf := new Byte[n](_ => 0);
    if ok {
      forall i | 0 <= i < |s| {
        buf[i] := s[i];
      }
      assert buf[..] == s + Zeros(n - |s|);
    }
  }

  function NewHeader(packetType: PacketType, targetType: TargetType, room: Id, user: Id,
                     sequence: U32, payloadLen: nat): Result<PacketHeader, EncodeError>
  {
    var roomField := PackedField(room, ROOM_ID_LEN);
    var userField := PackedField(user, USER_ID_LEN);
    if roomField.None? then Err(InvalidRoomId)
    else if userField.None? then Err(InvalidUserId)
    else if payloadLen >= 0x1_0000 then Err(PayloadTooLarge)
    else Ok(PacketHeader(PROTOCOL_VERSION, packetType, targetType,
                         roomField.value, userField.value, sequence, payloadLen))
  }

  // ---- big-endian integers ----

  function U16ToBe(n: U16): (s: seq<Byte>)
    ensures |s| == 2 && n == 0x100 * s[0] as int + s[1]
  {
    [n / 0x100, n % 0x100]
  }

  function U16FromBe(s: seq<Byte>): U16
    requires |s| == 2
  {
    var hi: int, lo: int := s[0], s[1];
    hi * 0x100 + lo
  }

  function U32ToBe(n: U32): (s: seq<Byte>)
    ensures |s| == 4 && n == 0x100_0000 * s[0] as int + 0x1_0000 * s[1] as int + 0x100 * s[2] as int + s[3]
  {
    U16ToBe(n / 0x1_0000) + U16ToBe(n % 0x1_0000)
  }

  function U32FromBe(s: seq<Byte>): U32
    requires |s| == 4
  {
    var hi: int, lo: int := U16FromBe(s[..2]), U16FromBe(s[2..]);
    hi * 0x1_0000 + lo
  }

  lemma U16RoundTrip(n: U16, s: seq<Byte>)
    requires |s| == 2
    ensures U16FromBe(U16ToBe(n)) == n && U16ToBe(U16FromBe(s)) == s
  {
  }

  lemma U32FromTo(n: U32)
    ensures U32FromBe(U32ToBe(n)) == n
  {
    var (hi, lo) := (U16ToBe(n / 0x1_0000), U16ToBe(n % 0x1_0000));
    assert (hi + lo)[..2] == hi && (hi + lo)[2..] == lo;
    U16RoundTrip(n / 0x1_0000, hi);
    U16RoundTrip(n % 0x1_0000, lo);
  }

  lemma U32ToFrom(s: seq<Byte>)
    requires |s| == 4
    ensures U32ToBe(U32FromBe(s)) == s
  {
    U16RoundTrip(0, s[..2]);
    U16RoundTrip(0, s[2..]);
    var (hi, lo) := (U16FromBe(s[..2]), U16FromBe(s[2..]));
    assert U32FromBe(s) / 0x1_0000 == hi && U32FromBe(s) % 0x1_0000 == lo;
    assert s == s[..2] + s[2..];
  }

  // ---- encoding ----

  function HeaderBytes(h: PacketHeader): (s: seq<Byte>)
    ensures |s| == HEADER_LEN
  {
    [h.version, h.packetType.AsU8(), h.targetType.AsU8(), 0]
    + h.roomId + h.userId + U32ToBe(h.sequence) + U16ToBe(h.length)
  }

  function Encode(h: PacketHeader, payload: seq<Byte>): Frame {
    HeaderBytes(h) + payload
  }

  /** Overwrites buf[at..at + |s|] with s. */
  method CopyFromSlice(buf: array<Byte>, at: nat, s: seq<Byte>)
    requires at + |s| <= buf.Length
    modifies buf
    ensures buf[..] == old(buf[..at]) + s + old(buf[at + |s|..])
  {
    forall i | 0 <= i < |s| {
      buf[at + i] := s[i];
    }
  }

  method EncodeHeader(h: PacketHeader) returns (buf: array<Byte>)
    ensures fresh(buf) && buf[..] == HeaderBytes(h)
  {
    buf := new Byte[HEADER_LEN](_ => 0);
    buf[0] := h.version;
    buf[1] := h.packetType.AsU8();
    buf[2] := h.targetType.AsU8();
    buf[3] := 0;
    var fixed := buf[..4];
    CopyFromSlice(buf, 4, h.roomId);
    CopyFromSlice(buf, 10, h.userId);
    CopyFromSlice(buf, 18, U32ToBe(h.sequence));
    CopyFromSlice(buf, 22, U16ToBe(h.length));
    assert fixed == [h.version, h.packetType.AsU8(), h.targetType.AsU8(), 0];
  }

  method EncodePacket(h: PacketHeader, payload: seq<Byte>) returns (frame: Frame)
    ensures frame == Encode(h, payload)
  {
    var header := EncodeHeader(h);
    frame := header[..];
    frame := frame + payload;
  }

  // ---- decoding ----

  function Decode(buf: Frame): Result<(PacketHeader, seq<Byte>), DecodeError> {
    if |buf| < HEADER_LEN then Err(TooShort)
    else if buf[0] != PROTOCOL_VERSION then Err(UnsupportedVersion(buf[0]))
    else if buf[3] != 0 then Err(NonZeroReserved(buf[3]))
    else if PacketTypeFromU8(buf[1]).None? then Err(UnknownPacketType(buf[1]))
    else if TargetTypeFromU8(buf[2]).None? then Err(UnknownTargetType(buf[2]))
    else if !IsValidAsciiField(buf[4..10]) then Err(NonAsciiRoomId)
    else if !IsValidAsciiField(buf[10..18]) then Err(NonAsciiUserId)
    else
      var length := U16FromBe(buf[22..24]);
      if |buf| - HEADER_LEN != length then Err(LengthMismatch(length, |buf| - HEADER_LEN))
      else
        Ok((PacketHeader(buf[0], PacketTypeFromU8(buf[1]).value, TargetTypeFromU8(buf[2]).value,
                         buf[4..10], buf[10..18], U32FromBe(buf[18..22]), length),
            buf[HEADER_LEN..]))
  }

  /** The packets the protocol allows on the wire. */
  predicate WellFormed(h: PacketHeader, payload: seq<Byte>) {
    && h.version == PROTOCOL_VERSION
    && IsValidAsciiField(h.roomId)
    && IsValidAsciiField(h.userId)
    && h.length == |payload|
  }

  lemma HeaderFields(h: PacketHeader, p: seq<Byte>)
    ensures var e := Encode(h, p);
      && |e| == HEADER_LEN + |p| && e[HEADER_LEN..] == p
      && e[0] == h.version && e[1] == h.packetType.AsU8() && e[2] == h.targetType.AsU8() && e[3] == 0
      && e[4..10] == h.roomId && e[10..18] == h.userId
      && U32FromBe(e[18..22]) == h.sequence && U16FromBe(e[22..24]) == h.length
  {
    var e := Encode(h, p);
    assert e[18..22] == U32ToBe(h.sequence);
    assert e[22..24] == U16ToBe(h.length);
    U32FromTo(h.sequence);
  }

  /** Decoding what was encoded succeeds exactly for the well-formed packets, and gives them back. */
  lemma DecodeOfEncode(h: PacketHeader, payload: seq<Byte>)
    ensures Decode(Encode(h, payload)).Ok? <==> WellFormed(h, payload)
    ensures WellFormed(h, payload) ==> Decode(Encode(h, payload)) == Ok((h, payload))
  {
    HeaderFields(h, payload);
  }

  /** Re-encoding what was decoded restores the buffer byte for byte. */
  lemma EncodeOfDecode(buf: Frame)
    requires Decode(buf).Ok?
    ensures var (h, p) := Decode(buf).value; WellFormed(h, p) && Encode(h, p) == buf
  {
    var (h, p) := Decode(buf).value;
    U32ToFrom(buf[18..22]);
    U16RoundTrip(0, buf[22..24]);
    assert U16ToBe(h.length) == buf[22..24];
    assert HeaderBytes(h) == buf[..4] + buf[4..10] + buf[10..18] + buf[18..22] + buf[22..24] == buf[..24];
    assert buf == buf[..24] + buf[24..];
  }

  /** The accepted buffers are exactly the encodings of well-formed packets, each of a single one. */
  lemma DecodeAcceptsExactlyEncodings(buf: Frame)
    ensures Decode(buf).Ok? <==> exists h, p :: WellFormed(h, p) && buf == Encode(h, p)
    ensures forall h, p | WellFormed(h, p) && buf == Encode(h, p) :: Decode(buf) == Ok((h, p))
  {
    if Decode(buf).Ok? {
      EncodeOfDecode(buf);
    }
    forall h, p | WellFormed(h, p) && buf == Encode(h, p) ensures Decode(buf) == Ok((h, p)) {
      DecodeOfEncode(h, p);
    }
  }

  /**
   * A length mismatch is reported only when nothing else is wrong: the same header in front of any
   * payload of the declared length is accepted.
   */
  lemma LengthMismatchIsTheOnlyFault(buf: Frame, payload: seq<Byte>)
    requires Decode(buf).Err? && Decode(buf).error.LengthMismatch?
    requires |payload| == Decode(buf).error.declared
    ensures Decode(buf[..HEADER_LEN] + payload).Ok?
    ensures Decode(buf).error.actual == |buf| - HEADER_LEN != |payload|
  {
    var fixed := buf[..HEADER_LEN] + payload;
    assert fixed[4..10] == buf[4..10] && fixed[10..18] == buf[10..18] && fixed[22..24] == buf[22..24];
  }

  /** The error is true of the buffer. */
  predicate Describes(e: DecodeError, buf: Frame) {
    if |buf| < HEADER_LEN then e.TooShort?
    else
      match e
      case TooShort => false
      case UnsupportedVersion(v) => v == buf[0] != 2
      case NonZeroReserved(v) => v == buf[3] != 0
      case UnknownPacketType(v) => v == buf[1] && !exists t: PacketType :: t.AsU8() == v
      case UnknownTargetType(v) => v == buf[2] && !exists t: TargetType :: t.AsU8() == v
      case NonAsciiRoomId => !IsValidAsciiField(buf[4..10])
      case NonAsciiUserId => !IsValidAsciiField(buf[10..18])
      case LengthMismatch(declared, actual) =>
        U16ToBe(declared) == buf[22..24] && actual == |buf| - HEADER_LEN != declared
  }

  /** The order in which faults take precedence. */
  function Rank(e: DecodeError): nat {
    match e
    case TooShort => 0
    case UnsupportedVersion(_) => 1
    case NonZeroReserved(_) => 2
    case UnknownPacketType(_) => 3
    case UnknownTargetType(_) => 4
    case NonAsciiRoomId => 5
    case NonAsciiUserId => 6
    case LengthMismatch(_, _) => 7
  }

  /** A buffer is refused iff some error is true of it, and the error reported is the first of those. */
  lemma FirstFaultIsReported(buf: Frame, e: DecodeError)
    ensures Decode(buf).Ok? ==> !Describes(e, buf)
    ensures Decode(buf).Err? ==> Describes(Decode(buf).error, buf)
    ensures Decode(buf).Err? && Describes(e, buf) ==> Rank(Decode(buf).error) <= Rank(e)
  {
    if |buf| >= HEADER_LEN {
      U16RoundTrip(0, buf[22..24]);
      if e.LengthMismatch? {
        U16RoundTrip(e.declared, buf[22..24]);
      }
      if PacketTypeFromU8(buf[1]).Some? {
        assert PacketTypeFromU8(buf[1]).value.AsU8() == buf[1];
      }
      if TargetTypeFromU8(buf[2]).Some? {
        assert TargetTypeFromU8(buf[2]).value.AsU8() == buf[2];
      }
    }
  }

  /** When `new` accepts, and which of its arguments it blames otherwise. */
  lemma NewSucceedsExactly(packetType: PacketType, targetType: TargetType, room: Id, user: Id,
                           sequence: U32, payloadLen: nat)
    ensures var r := NewHeader(packetType, targetType, room, user, sequence, payloadLen);
      var (roomFits, userFits) := (IsAscii(room) && |room| <= 6, IsAscii(user) && |user| <= 8);
      && (r == Err(InvalidRoomId) <==> !roomFits)
      && (r == Err(InvalidUserId) <==> roomFits && !userFits)
      && (r == Err(PayloadTooLarge) <==> roomFits && userFits && payloadLen > 0xFFFF)
      && (r.Ok? ==>
            && r.value.version == 2 && r.value.packetType == packetType && r.value.targetType == targetType
            && r.value.sequence == sequence && r.value.length == payloadLen
            && r.value.roomId[..|room|] == room && AllZero(r.value.roomId[|room|..])
            && r.value.userId[..|user|] == user && AllZero(r.value.userId[|user|..]))
  {
  }

  // ---- identifiers ----

  /** No zero byte is followed by a non-zero one. */
  predicate ZerosOnlyAtEnd(s: seq<Byte>) {
    forall i, j :: 0 <= i < j < |s| && s[i] == 0 ==> s[j] == 0
  }

  lemma {:induction false} AsciiIsUtf8(s: seq<Byte>, i: nat)
    requires IsAscii(s)
    ensures ValidUtf8(s, i)
    decreases |s| - i
  {
    if i >= |s| {
    } else {
      AsciiIsUtf8(s, i + 1);
    }
  }

  lemma TrimmedField(f: seq<Byte>)
    requires IsValidAsciiField(f)
    ensures AsciiFieldStr(f) == f[..FirstZero(f)]
    ensures PackedField(AsciiFieldStr(f), |f|) == Some(f) && 0 !in AsciiFieldStr(f)
  {
    var z := FirstZero(f);
    var s := f[..z];
    AsciiIsUtf8(s, 0);
    assert f[z..] == Zeros(|f| - z);
    assert f == s + f[z..];
  }

  /** Trimming is injective on the valid fields of one length. */
  lemma TrimInjective(f: seq<Byte>, g: seq<Byte>)
    requires IsValidAsciiField(f) && IsValidAsciiField(g) && |f| == |g|
    requires AsciiFieldStr(f) == AsciiFieldStr(g)
    ensures f == g
  {
    TrimmedField(f);
    TrimmedField(g);
  }

  /** A packed id is a valid field iff its zeros are all at its end, and trims back to itself iff it has none. */
  lemma PackedFieldTrims(s: Id, n: nat)
    requires PackedField(s, n).Some?
    ensures IsValidAsciiField(PackedField(s, n).value) <==> ZerosOnlyAtEnd(s)
    ensures AsciiFieldStr(PackedField(s, n).value) == s <==> 0 !in s
  {
    var f := PackedField(s, n).value;
    var z := FirstZero(f);
    AsciiIsUtf8(f[..z], 0);
    assert (z < |s| ==> s[z] == 0) && (|s| < n ==> f[|s|] == 0);
    if 0 !in s {
      assert f[..z] == s;
    } else {
      var i :| 0 <= i < |s| && s[i] == 0;
      assert f[i] == 0 && z <= i;
      assert |f[..z]| < |s|;
    }
    if ZerosOnlyAtEnd(s) {
      forall i | z <= i < |f| ensures f[i] == 0 {
        if i < |s| {
          assert s[z] == f[z] == 0;
        }
      }
    }
    if IsValidAsciiField(f) {
      forall i, j | 0 <= i < j < |s| && s[i] == 0 ensures s[j] == 0 {
        assert f[i] == s[i] && f[j] == s[j];
        assert z <= i;
      }
    }
  }

  /**
   * A header made by `new` survives the wire exactly when no id has a zero before a non-zero byte
   * and the payload has the announced length.
   */
  lemma NewEncodeDecode(packetType: PacketType, targetType: TargetType, room: Id, user: Id,
                        sequence: U32, payloadLen: nat, payload: seq<Byte>)
    requires NewHeader(packetType, targetType, room, user, sequence, payloadLen).Ok?
    ensures var h := NewHeader(packetType, targetType, room, user, sequence, payloadLen).value;
      && (Decode(Encode(h, payload)).Ok?
          <==> ZerosOnlyAtEnd(room) && ZerosOnlyAtEnd(user) && payloadLen == |payload|)
      && (h.RoomIdStr() == room <==> 0 !in room)
      && (h.UserIdStr() == user <==> 0 !in user)
  {
    var h := NewHeader(packetType, targetType, room, user, sequence, payloadLen).value;
    PackedFieldTrims(room, ROOM_ID_LEN);
    PackedFieldTrims(user, USER_ID_LEN);
    DecodeOfEncode(h, payload);
  }
}

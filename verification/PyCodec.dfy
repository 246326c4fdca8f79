/** The hand-written Python codec, and its agreement with the Rust one. */
module PyCodec {
  import opened Wrappers
  import opened GatewayProtocol

  /** A Python string is a sequence of code points. */
  type CodePoint = c: int | 0 <= c < 0x11_0000

  datatype Fields = Fields(version: Byte, pktType: Byte, tgtType: Byte,
                           roomId: seq<CodePoint>, userId: seq<CodePoint>, seqNo: U32, payload: seq<Byte>)

  datatype CodecError = EncodeError | UnicodeEncodeError | DecodeError

  /** str.encode("ascii"). */
  function EncodeAscii(s: seq<CodePoint>): (r: Result<Id, CodecError>)
    ensures r.Ok? <==> forall i :: 0 <= i < |s| ==> s[i] < 0x80
    ensures r.Ok? ==> |r.value| == |s| && forall i :: 0 <= i < |s| ==> r.value[i] == s[i]
  {
    if forall i :: 0 <= i < |s| ==> s[i] < 0x80
    then Ok(seq(|s|, i requires 0 <= i < |s| => s[i]))
    else Err(UnicodeEncodeError)
  }

  function ValidateAsciiField(value: Id, maxLen: nat): Result<seq<Byte>, CodecError> {
    if |value| > maxLen then Err(EncodeError)
    else if 0 in value || !IsAscii(value) then Err(EncodeError)
    else Ok(value + Zeros(maxLen - |value|))
  }

  /** bytes.find of one byte: the first index, from i on, that holds it, or -1. */
  function Find(s: seq<Byte>, b: Byte, i: nat): (r: int)
    requires i <= |s|
    ensures r == -1 || i <= r < |s|
    ensures forall k :: i <= k < (if r == -1 then |s| else r) ==> s[k] != b
    ensures 0 <= r ==> s[r] == b
    decreases |s| - i
  {
    if i == |s| then -1 else if s[i] == b then i else Find(s, b, i + 1)
  }

  /** bytes.decode("ascii"), on bytes below 0x80. */
  function Chars(s: seq<Byte>): (r: seq<CodePoint>)
    ensures SameText(r, s)
  {
    seq(|s|, i requires 0 <= i < |s| => s[i])
  }

  function DecodeAsciiField(field: seq<Byte>): Result<seq<CodePoint>, CodecError> {
    var firstZero := Find(field, 0, 0);
    var data := if firstZero == -1 then field else field[..firstZero];
    var padding := if firstZero == -1 then [] else field[firstZero..];
    if 0 in data then Err(DecodeError)
    else if !IsAscii(data) then Err(DecodeError)
    else if !AllZero(padding) then Err(DecodeError)
    else Ok(Chars(data))
  }

  function PyEncode(version: int, pktType: int, tgtType: int, roomId: seq<CodePoint>, userId: seq<CodePoint>,
                    seqNo: int, payload: seq<Byte>): Result<Frame, CodecError>
  {
    if version != PROTOCOL_VERSION then Err(EncodeError)
    else if pktType !in {1, 2, 3, 4} then Err(EncodeError)
    else if tgtType !in {1, 2} then Err(EncodeError)
    else if seqNo < 0 || seqNo > 0xFFFF_FFFF then Err(EncodeError)
    else if |payload| > 0xFFFF then Err(EncodeError)
    else
      var roomBytes := EncodeAscii(roomId);
      var userBytes := EncodeAscii(userId);
      if roomBytes.Err? then Err(roomBytes.error)
      else if userBytes.Err? then Err(userBytes.error)
      else
        var paddedRoom := ValidateAsciiField(roomBytes.value, ROOM_ID_LEN);
        var paddedUser := ValidateAsciiField(userBytes.value, USER_ID_LEN);
        if paddedRoom.Err? then Err(EncodeError)
        else if paddedUser.Err? then Err(EncodeError)
        else
          Ok([version, pktType, tgtType, 0] + paddedRoom.value + paddedUser.value
             + U32ToBe(seqNo) + U16ToBe(|payload|) + payload)
  }

  function PyDecode(raw: seq<Byte>): Result<Fields, CodecError> {
    if |raw| < HEADER_LEN then Err(DecodeError)
    else if raw[0] != PROTOCOL_VERSION then Err(DecodeError)
    else if raw[1] !in {1, 2, 3, 4} then Err(DecodeError)
    else if raw[2] !in {1, 2} then Err(DecodeError)
    else if raw[3] != 0 then Err(DecodeError)
    else
      var roomId := DecodeAsciiField(raw[4..10]);
      var userId := DecodeAsciiField(raw[10..18]);
      if roomId.Err? then Err(DecodeError)
      else if userId.Err? then Err(DecodeError)
      else
        var payload := raw[HEADER_LEN..];
        if |payload| != U16FromBe(raw[22..24]) then Err(DecodeError)
        else Ok(Fields(raw[0], raw[1], raw[2], roomId.value, userId.value, U32FromBe(raw[18..22]), payload))
  }

  /** A Python string and a byte string that hold the same ASCII characters. */
  predicate SameText(s: seq<CodePoint>, b: Id) {
    |s| == |b| && forall i :: 0 <= i < |s| ==> s[i] == b[i]
  }

  lemma FieldAgrees(field: seq<Byte>)
    ensures var r := DecodeAsciiField(field);
      && (r.Ok? <==> IsValidAsciiField(field))
      && (r.Ok? ==> SameText(r.value, AsciiFieldStr(field)))
  {
    var z := FirstZero(field);
    assert Find(field, 0, 0) == if z == |field| then -1 else z;
    assert field[..|field|] == field;
    if IsValidAsciiField(field) {
      TrimmedField(field);
    }
  }

  predicate SameFields(f: Fields, h: PacketHeader, payload: seq<Byte>) {
    && f.version == h.version && f.pktType == h.packetType.AsU8() && f.tgtType == h.targetType.AsU8()
    && f.seqNo == h.sequence && f.payload == payload
    && SameText(f.roomId, h.RoomIdStr()) && SameText(f.userId, h.UserIdStr())
  }

  /** Accepts exactly the buffers the Rust decoder accepts, with equal fields. */
  lemma PyDecodeAgrees(buf: seq<Byte>)
    ensures PyDecode(buf).Ok? <==> Decode(buf).Ok?
    ensures Decode(buf).Ok? ==> SameFields(PyDecode(buf).value, Decode(buf).value.0, Decode(buf).value.1)
  {
    if |buf| >= HEADER_LEN {
      var room, user := buf[4..10], buf[10..18];
      FieldAgrees(room);
      FieldAgrees(user);
      var py := PyDecode(buf);
      if Decode(buf).Ok? {
        var (h, p) := Decode(buf).value;
        assert py.Ok? && py.value.roomId == DecodeAsciiField(room).value;
        assert py.value.userId == DecodeAsciiField(user).value;
        assert h.RoomIdStr() == AsciiFieldStr(room) && h.UserIdStr() == AsciiFieldStr(user);
      }
    }
  }

  /**
   * For typed arguments and ids that Rust can be given, Python encodes iff Rust does and no id
   * holds a NUL, and then the bytes are identical.
   */
  lemma PyEncodeAgrees(packetType: PacketType, targetType: TargetType, roomId: seq<CodePoint>, userId: seq<CodePoint>,
                       room: Id, user: Id, sequence: U32, payload: seq<Byte>)
    requires SameText(roomId, room) && SameText(userId, user)
    ensures
      var py := PyEncode(PROTOCOL_VERSION, packetType.AsU8(), targetType.AsU8(), roomId, userId, sequence, payload);
      var rust := NewHeader(packetType, targetType, room, user, sequence, |payload|);
      && (py.Ok? <==> rust.Ok? && 0 !in room && 0 !in user)
      && (py.Ok? ==> py.value == Encode(rust.value, payload))
  {
    var py := PyEncode(PROTOCOL_VERSION, packetType.AsU8(), targetType.AsU8(), roomId, userId, sequence, payload);
    var rust := NewHeader(packetType, targetType, room, user, sequence, |payload|);
    if IsAscii(room) && IsAscii(user) {
      assert EncodeAscii(roomId).value == room && EncodeAscii(userId).value == user;
      if py.Ok? {
        assert py.value == HeaderBytes(rust.value) + payload;
      }
    }
  }

  /** Python encodes nothing else: every accepted call has typed arguments and ASCII ids. */
  lemma PyEncodeAcceptsOnly(version: int, pktType: int, tgtType: int, roomId: seq<CodePoint>, userId: seq<CodePoint>,
                            seqNo: int, payload: seq<Byte>)
    requires PyEncode(version, pktType, tgtType, roomId, userId, seqNo, payload).Ok?
    ensures version == PROTOCOL_VERSION && 0 <= seqNo < 0x1_0000_0000
    ensures exists packetType: PacketType :: packetType.AsU8() == pktType
    ensures exists targetType: TargetType :: targetType.AsU8() == tgtType
    ensures exists room: Id, user: Id :: SameText(roomId, room) && SameText(userId, user)
  {
    assert PacketTypeFromU8(pktType).value.AsU8() == pktType;
    assert TargetTypeFromU8(tgtType).value.AsU8() == tgtType;
    assert SameText(roomId, EncodeAscii(roomId).value) && SameText(userId, EncodeAscii(userId).value);
  }
}

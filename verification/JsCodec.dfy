/**
 * The hand-written JavaScript codec. Its loops and check order are kept; each method is proved
 * to return what the Rust codec determines.
 */
module JsCodec {
  import opened Wrappers
  import opened GatewayProtocol

  /** A JavaScript string is a sequence of UTF-16 code units. */
  type CodeUnit = U16

  /** The values an encode option can hold, as far as the checks tell them apart. */
  datatype JsValue = Str(units: seq<CodeUnit>) | NotStr
  datatype JsNumber = Finite(value: real) | NotFinite

  datatype Options = Options(version: JsNumber, pktType: JsNumber, tgtType: JsNumber,
                             roomId: JsValue, userId: JsValue, seqNo: JsNumber, payload: seq<Byte>)

  datatype Fields = Fields(version: Byte, pktType: Byte, tgtType: Byte,
                           roomId: seq<CodeUnit>, userId: seq<CodeUnit>, seqNo: U32, payload: seq<Byte>)

  datatype CodecError = EncodeError | DecodeError

  predicate IsInteger(n: JsNumber) {
    n.Finite? && n.value == n.value.Floor as real
  }

  /** The integer an argument holds, if it is one in 0..bound-1. */
  function AsInt(n: JsNumber, bound: nat): (r: Option<int>)
    ensures r.Some? ==> 0 <= r.value < bound
  {
    if IsInteger(n) && 0 <= n.value.Floor < bound then Some(n.value.Floor) else None
  }

  function PacketTypeArg(n: JsNumber): Option<PacketType> {
    var v := AsInt(n, 0x100);
    if v.Some? then PacketTypeFromU8(v.value) else None
  }

  function TargetTypeArg(n: JsNumber): Option<TargetType> {
    var v := AsInt(n, 0x100);
    if v.Some? then TargetTypeFromU8(v.value) else None
  }

  predicate AllAscii(s: seq<CodeUnit>) {
    forall i :: 0 <= i < |s| ==> s[i] < 0x80
  }

  /** An ASCII string has the same numbers as code units and as bytes. */
  function Bytes(s: seq<CodeUnit>): (b: Id)
    requires AllAscii(s)
    ensures |b| == |s| && forall i :: 0 <= i < |s| ==> b[i] == s[i]
  {
    seq(|s|, i requires 0 <= i < |s| => s[i])
  }

  /** The ids the JavaScript encoder takes: ASCII strings of at most n units without NUL. */
  predicate Packable(v: JsValue, n: nat) {
    v.Str? && |v.units| <= n && AllAscii(v.units) && 0 !in v.units
  }

  method PackAsciiField(value: JsValue, maxLen: nat) returns (r: Result<seq<Byte>, CodecError>)
    ensures r.Ok? <==> Packable(value, maxLen)
    ensures r.Ok? ==> Some(r.value) == PackedField(Bytes(value.units), maxLen)
  {
    if value.NotStr? {
      return Err(EncodeError);
    }
    var s := value.units;
    if |s| > maxLen {
      return Err(EncodeError);
    }
    var i := 0;
    while i < |s|
      invariant 0 <= i <= |s|
      invariant forall k :: 0 <= k < i ==> 0 < s[k] < 0x80
    {
      if s[i] == 0 || s[i] > 0x7F {
        return Err(EncodeError);
      }
      i := i + 1;
    }
    var out := new Byte[maxLen](_ => 0);
    i := 0;
    while i < |s|
      invariant 0 <= i <= |s|
      invariant forall k :: 0 <= k < maxLen ==> out[k] == if k < i then s[k] else 0
    {
      out[i] := s[i];
      i := i + 1;
    }
    assert out[..] == Bytes(s) + Zeros(maxLen - |s|);
    return Ok(out[..]);
  }

  method UnpackAsciiField(field: seq<Byte>) returns (r: Result<seq<CodeUnit>, CodecError>)
    ensures r.Ok? <==> IsValidAsciiField(field)
    ensures r.Ok? ==> AllAscii(r.value) && Bytes(r.value) == AsciiFieldStr(field)
  {
    var firstZero := -1;
    var i := 0;
    while i < |field|
      invariant 0 <= i <= |field|
      invariant firstZero == -1
      invariant forall k :: 0 <= k < i ==> field[k] != 0
    {
      if field[i] == 0 {
        firstZero := i;
        break;
      }
      i := i + 1;
    }
    var dataEnd: nat := if firstZero == -1 then |field| else firstZero;
    assert dataEnd == FirstZero(field);
    i := 0;
    while i < dataEnd
      invariant 0 <= i <= dataEnd
      invariant forall k :: 0 <= k < i ==> field[k] < 0x80
    {
      if field[i] > 0x7F || field[i] == 0 {
        return Err(DecodeError);
      }
      i := i + 1;
    }
    i := dataEnd;
    while i < |field|
      invariant dataEnd <= i <= |field|
      invariant forall k :: dataEnd <= k < i ==> field[k] == 0
    {
      if field[i] != 0 {
        return Err(DecodeError);
      }
      i := i + 1;
    }
    var str: seq<CodeUnit> := [];
    i := 0;
    while i < dataEnd
      invariant 0 <= i <= dataEnd
      invariant str == field[..i]
    {
      str := str + [field[i]];
      i := i + 1;
    }
    TrimmedField(field);
    assert Bytes(str) == field[..dataEnd];
    return Ok(str);
  }

  /** When the JavaScript encoder accepts, as a condition on its options alone. */
  predicate Encodable(o: Options) {
    && o.version == Finite(PROTOCOL_VERSION as real)
    && PacketTypeArg(o.pktType).Some?
    && TargetTypeArg(o.tgtType).Some?
    && AsInt(o.seqNo, 0x1_0000_0000).Some?
    && |o.payload| < 0x1_0000
    && Packable(o.roomId, ROOM_ID_LEN)
    && Packable(o.userId, USER_ID_LEN)
  }

  /** What the Rust encoder makes of the same arguments. */
  function RustEncode(packetType: PacketType, targetType: TargetType, room: Id, user: Id,
                      sequence: U32, payload: seq<Byte>): Option<Frame>
  {
    var h := NewHeader(packetType, targetType, room, user, sequence, |payload|);
    if h.Ok? then Some(Encode(h.value, payload)) else None
  }

  /** Writes the bytes of s at offset `at`, as TypedArray.set and the DataView setters do. */
  method SetAt(out: array<Byte>, at: nat, s: seq<Byte>)
    requires at + |s| <= out.Length
    modifies out
    ensures out[..] == old(out[..at]) + s + old(out[at + |s|..])
  {
    var i := 0;
    while i < |s|
      invariant 0 <= i <= |s|
      invariant out[..at] == old(out[..at]) && out[at..at + i] == s[..i] && out[at + i..] == old(out[at + i..])
    {
      out[at + i] := s[i];
      i := i + 1;
    }
    assert out[..] == out[..at] + out[at..at + |s|] + out[at + |s|..];
  }

  method Assemble(version: Byte, pktType: Byte, tgtType: Byte, room: RoomField, user: UserField,
                  sequence: U32, payload: seq<Byte>) returns (out: array<Byte>)
    requires |payload| < 0x1_0000
    ensures fresh(out)
    ensures out[..] == [version, pktType, tgtType, 0] + room + user + U32ToBe(sequence) + U16ToBe(|payload|) + payload
  {
    out := new Byte[HEADER_LEN + |payload|](_ => 0);
    out[0] := version;
    out[1] := pktType;
    out[2] := tgtType;
    out[3] := 0;
    var fixed := out[..4];
    SetAt(out, 4, room);
    SetAt(out, 10, user);
    SetAt(out, 18, U32ToBe(sequence));
    SetAt(out, 22, U16ToBe(|payload|));
    SetAt(out, HEADER_LEN, payload);
    assert fixed == [version, pktType, tgtType, 0];
  }

  /**
   * Accepts exactly the encodable options, and then returns the bytes that the Rust
   * constructor and encoder produce for them.
   */
  method JsEncode(o: Options) returns (r: Result<Frame, CodecError>)
    ensures r.Ok? <==> Encodable(o)
    ensures r.Ok? ==>
      Some(r.value) ==
        RustEncode(PacketTypeArg(o.pktType).value, TargetTypeArg(o.tgtType).value,
                   Bytes(o.roomId.units), Bytes(o.userId.units), o.seqNo.value.Floor, o.payload)
  {
    if o.version != Finite(PROTOCOL_VERSION as real) {
      return Err(EncodeError);
    }
    if o.pktType !in {Finite(1.0), Finite(2.0), Finite(3.0), Finite(4.0)} {
      return Err(EncodeError);
    }
    if o.tgtType !in {Finite(1.0), Finite(2.0)} {
      return Err(EncodeError);
    }
    if !IsInteger(o.seqNo) || o.seqNo.value < 0.0 || o.seqNo.value > 4294967295.0 {
      return Err(EncodeError);
    }
    if |o.payload| > 0xFFFF {
      return Err(EncodeError);
    }
    var room := PackAsciiField(o.roomId, ROOM_ID_LEN);
    if room.Err? {
      return Err(EncodeError);
    }
    var user := PackAsciiField(o.userId, USER_ID_LEN);
    if user.Err? {
      return Err(EncodeError);
    }
    var out := Assemble(o.version.value.Floor, o.pktType.value.Floor, o.tgtType.value.Floor,
                        room.value, user.value, o.seqNo.value.Floor, o.payload);
    if out[0] != PROTOCOL_VERSION {
      return Err(EncodeError);
    }
    return Ok(out[..]);
  }

  /** Accepts exactly the buffers the Rust decoder accepts, and returns the same fields. */
  method JsDecode(buf: seq<Byte>) returns (r: Result<Fields, CodecError>)
    ensures r.Ok? <==> Decode(buf).Ok?
    ensures r.Ok? ==>
      var (h, p) := Decode(buf).value;
      && r.value.version == h.version && r.value.pktType == h.packetType.AsU8()
      && r.value.tgtType == h.targetType.AsU8() && r.value.seqNo == h.sequence && r.value.payload == p
      && AllAscii(r.value.roomId) && Bytes(r.value.roomId) == h.RoomIdStr()
      && AllAscii(r.value.userId) && Bytes(r.value.userId) == h.UserIdStr()
  {
    if |buf| < HEADER_LEN {
      return Err(DecodeError);
    }
    var version, pktType, tgtType, reserved := buf[0], buf[1], buf[2], buf[3];
    if version != PROTOCOL_VERSION {
      return Err(DecodeError);
    }
    if pktType !in {1, 2, 3, 4} {
      return Err(DecodeError);
    }
    if tgtType !in {1, 2} {
      return Err(DecodeError);
    }
    if reserved != 0 {
      return Err(DecodeError);
    }
    var roomId := UnpackAsciiField(buf[4..10]);
    if roomId.Err? {
      return Err(DecodeError);
    }
    var userId := UnpackAsciiField(buf[10..18]);
    if userId.Err? {
      return Err(DecodeError);
    }
    var seqNo, declaredLen := U32FromBe(buf[18..22]), U16FromBe(buf[22..24]);
    var payload := buf[HEADER_LEN..];
    if |payload| != declaredLen {
      return Err(DecodeError);
    }
    return Ok(Fields(version, pktType, tgtType, roomId.value, userId.value, seqNo, payload));
  }

  /**
   * For options within the typed arguments of the Rust constructor, the two encoders differ on
   * NULs inside ids only: Rust takes them, JavaScript does not.
   */
  lemma OnlyNulsDiffer(o: Options, packetType: PacketType, targetType: TargetType, sequence: U32)
    requires o.version == Finite(PROTOCOL_VERSION as real)
    requires o.pktType == Finite(packetType.AsU8() as real) && o.tgtType == Finite(targetType.AsU8() as real)
    requires o.seqNo == Finite(sequence as real)
    requires o.roomId.Str? && AllAscii(o.roomId.units) && o.userId.Str? && AllAscii(o.userId.units)
    ensures var room, user := Bytes(o.roomId.units), Bytes(o.userId.units);
      Encodable(o) <==>
        RustEncode(packetType, targetType, room, user, sequence, o.payload).Some? && 0 !in room && 0 !in user
  {
  }

  /** The options hold these typed arguments of the Rust constructor, and ids without NUL. */
  predicate Typed(o: Options, packetType: PacketType, targetType: TargetType, sequence: U32) {
    && o.version == Finite(2.0)
    && o.pktType == Finite(packetType.AsU8() as real) && o.tgtType == Finite(targetType.AsU8() as real)
    && o.seqNo == Finite(sequence as real)
    && o.roomId.Str? && AllAscii(o.roomId.units) && 0 !in o.roomId.units
    && o.userId.Str? && AllAscii(o.userId.units) && 0 !in o.userId.units
  }

  /** The JavaScript encoder accepts exactly the options that hold arguments the Rust encoder takes. */
  lemma EncodesOnlyTyped(o: Options)
    ensures Encodable(o) <==>
      exists packetType, targetType, sequence: U32 ::
        && Typed(o, packetType, targetType, sequence)
        && RustEncode(packetType, targetType, Bytes(o.roomId.units), Bytes(o.userId.units), sequence, o.payload).Some?
  {
    if Encodable(o) {
      var (packetType, targetType) := (PacketTypeArg(o.pktType).value, TargetTypeArg(o.tgtType).value);
      var sequence: U32 := o.seqNo.value.Floor;
      assert Typed(o, packetType, targetType, sequence);
      OnlyNulsDiffer(o, packetType, targetType, sequence);
    }
    if packetType, targetType, sequence: U32 :|
      && Typed(o, packetType, targetType, sequence)
      && RustEncode(packetType, targetType, Bytes(o.roomId.units), Bytes(o.userId.units), sequence, o.payload).Some?
    {
      OnlyNulsDiffer(o, packetType, targetType, sequence);
    }
  }
}

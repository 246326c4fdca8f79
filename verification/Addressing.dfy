/** Which registered connections a unicast packet can reach at all. */
module Addressing {
  import opened Wrappers
  import opened GatewayProtocol
  import opened Gateway

  /** The WebSocket handler admits exactly the ids that a packet header can be made of. */
  lemma AdmittedExactly(room: Id, user: Id, packetType: PacketType, targetType: TargetType, sequence: U32)
    ensures WsReject(room, user).None? <==> NewHeader(packetType, targetType, room, user, sequence, 0).Ok?
  {
  }

  /** The rejection names the first of the faults: room, then user, not ASCII; room, then user, too long. */
  lemma RejectsFirstFault(room: Id, user: Id)
    ensures
      var r := WsReject(room, user);
      var roomAscii := forall i :: 0 <= i < |room| ==> room[i] < 128;
      var userAscii := forall i :: 0 <= i < |user| ==> user[i] < 128;
      && (r == Some(RoomNotAscii) <==> !roomAscii)
      && (r == Some(UserNotAscii) <==> roomAscii && !userAscii)
      && (r == Some(RoomTooLong) <==> roomAscii && userAscii && |room| > 6)
      && (r == Some(UserTooLong) <==> roomAscii && userAscii && |room| <= 6 && |user| > 8)
      && (r == None <==> roomAscii && userAscii && |room| <= 6 && |user| <= 8)
  {
  }

  /** Some buffer decodes to a unicast packet for this room and user. */
  ghost predicate Addressable(room: Id, user: Id) {
    exists buf :: Decode(buf).Ok? && UnicastFor(Decode(buf).value.0, room, user)
  }

  predicate UnicastFor(h: PacketHeader, room: Id, user: Id) {
    h.targetType.Unicast? && h.RoomIdStr() == room && h.UserIdStr() == user
  }

  /**
   * The WebSocket handler admits ids that contain NUL, but no packet can name them: an admitted
   * connection can be reached by unicast iff neither of its ids contains one.
   */
  lemma AddressableExactly(room: Id, user: Id)
    requires WsReject(room, user).None?
    ensures Addressable(room, user) <==> 0 !in room && 0 !in user
  {
    if Addressable(room, user) {
      var buf :| Decode(buf).Ok? && UnicastFor(Decode(buf).value.0, room, user);
      var (h, p) := Decode(buf).value;
      EncodeOfDecode(buf);
      TrimmedField(h.roomId);
      TrimmedField(h.userId);
    }
    if 0 !in room && 0 !in user {
      var h := NewHeader(Heartbeat, Unicast, room, user, 0, 0).value;
      NewEncodeDecode(Heartbeat, Unicast, room, user, 0, 0, []);
      DecodeOfEncode(h, []);
      assert Decode(Encode(h, [])).Ok? && UnicastFor(Decode(Encode(h, [])).value.0, room, user);
    }
  }

  /** Such an admitted but unreachable connection exists. */
  lemma AdmittedYetUnreachable()
    ensures exists room, user :: WsReject(room, user).None? && !Addressable(room, user)
  {
    AddressableExactly([0], [0x61]);
    assert WsReject([0], [0x61]).None?;
  }
}

/**
 * The Router object, one call at a time: its methods over the two-level map and the shared
 * channels. Module Gateway interleaves the same operations.
 */
module Router {
  import opened Wrappers
  import opened GatewayProtocol
  import opened Channel
  import opened Registry
  import opened Backpressure

  type Sender = BoundedChannel<Frame>

  /** A retry task that dispatch spawned. */
  datatype Retry = Retry(room: Id, user: Id, tx: Sender, packet: Frame)

  /** The users a packet goes to, given the members of its room. */
  function Targets(members: map<Id, Sender>, h: PacketHeader): (users: set<Id>)
    ensures forall u :: u in users <==> u in members && (h.targetType == Broadcast || u == h.UserIdStr())
  {
    if h.targetType.Broadcast? then members.Keys
    else if h.UserIdStr() in members then {h.UserIdStr()}
    else {}
  }

  /** Which of the given users are members of a room served by channel ch. */
  function Served(members: map<Id, Sender>, users: set<Id>, ch: Sender): (served: set<Id>)
    ensures served <= users
  {
    set u | u in users && u in members && members[u] == ch
  }

  function Hits(members: map<Id, Sender>, users: set<Id>, ch: Sender): nat {
    |Served(members, users, ch)|
  }

  /** n sends of the same packet, one after the other. */
  function Times(c: Chan<Frame>, op: Op<Frame>, n: nat): Chan<Frame> {
    if n == 0 then c else Apply(Times(c, op, n - 1), op)
  }

  function RetriesTo(retries: seq<Retry>, ch: Sender): nat {
    if retries == [] then 0
    else RetriesTo(retries[..|retries| - 1], ch) + if retries[|retries| - 1].tx == ch then 1 else 0
  }

  lemma HitsGrow(members: map<Id, Sender>, users: set<Id>, u: Id, ch: Sender)
    requires u in members && u !in users
    ensures Hits(members, users + {u}, ch) == Hits(members, users, ch) + if members[u] == ch then 1 else 0
  {
    var before := Served(members, users, ch);
    assert Served(members, users + {u}, ch) == if members[u] == ch then before + {u} else before;
  }

  /** Every channel that some entry holds a sender of. */
  ghost function ChannelsOf(rooms: Rooms<Id, Sender>): set<Sender> {
    set r, u | r in rooms && u in rooms[r] :: rooms[r][u]
  }

  lemma RegisteringChannels(rooms: Rooms<Id, Sender>, room: Id, user: Id, tx: Sender)
    requires NoEmptyRoom(rooms)
    ensures var after := InsertUser(EnsureRoom(rooms, room), room, user, tx);
      NoEmptyRoom(after) && ChannelsOf(after) <= ChannelsOf(rooms) + {tx}
  {
    var after := InsertUser(EnsureRoom(rooms, room), room, user, tx);
    assert user in after[room];
  }

  /** Afterwards the key holds tx, whoever it held before, and every other key is as it was. */
  lemma RegisterSetsKey(rooms: Rooms<Id, Sender>, room: Id, user: Id, tx: Sender)
    ensures Flat(InsertUser(EnsureRoom(rooms, room), room, user, tx)) == Flat(rooms)[(room, user) := tx]
  {
    EnsureIsInvisible(rooms, room);
    InsertTakesEffect(EnsureRoom(rooms, room), room, user, tx);
  }

  lemma UnregisteringChannels(rooms: Rooms<Id, Sender>, room: Id, user: Id)
    requires NoEmptyRoom(rooms)
    ensures var after := RemoveIfEmpty(RemoveUser(rooms, room, user), room);
      NoEmptyRoom(after) && ChannelsOf(after) <= ChannelsOf(rooms)
  {
  }

  /** Afterwards the key is free, and every other key is as it was. */
  lemma UnregisterClearsKey(rooms: Rooms<Id, Sender>, room: Id, user: Id)
    ensures Flat(RemoveIfEmpty(RemoveUser(rooms, room, user), room)) == Flat(rooms) - {(room, user)}
  {
    RemoveTakesEffect(rooms, room, user);
    RemoveIfEmptyIsInvisible(RemoveUser(rooms, room, user), room);
  }

  /** After n target users: the packet was sent n times, and each send was accepted or is being retried. */
  ghost predicate Progress(before: Chan<Frame>, now: Chan<Frame>, h: PacketHeader, packet: Frame, n: nat,
                           retries: nat)
  {
    && now == Times(before, Policy(h.packetType, packet), n)
    && (h.packetType.SystemCmd? ==> retries + |now.accepted| == |before.accepted| + n)
  }

  lemma OneMore(before: Chan<Frame>, now: Chan<Frame>, h: PacketHeader, packet: Frame, n: nat, retries: nat)
    requires Progress(before, now, h, packet, n, retries)
    ensures Progress(before, Apply(now, Policy(h.packetType, packet)), h, packet, n + 1,
                     retries + if h.packetType.SystemCmd? && now.Full() then 1 else 0)
  {
  }

  type Histories = map<Sender, Chan<Frame>>

  /** A retry is for a target of this packet, over the channel that target had when it was sent. */
  ghost predicate ForTargets(retries: seq<Retry>, h: PacketHeader, packet: Frame, members: map<Id, Sender>,
                             users: set<Id>)
  {
    forall i :: 0 <= i < |retries| ==>
      var r := retries[i];
      r.user in users && r.user in members && r == Retry(h.RoomIdStr(), r.user, members[r.user], packet)
  }

  /** The progress of every channel once the users in `done` have been served. */
  ghost predicate AllProgress(before: Histories, now: Histories, h: PacketHeader, packet: Frame,
                              members: map<Id, Sender>, done: set<Id>, retries: seq<Retry>)
  {
    && before.Keys == now.Keys
    && (!h.packetType.SystemCmd? ==> retries == [])
    && ForTargets(retries, h, packet, members, done)
    && forall ch :: ch in before ==>
         Progress(before[ch], now[ch], h, packet, Hits(members, done, ch), RetriesTo(retries, ch))
  }

  lemma NothingDone(before: Histories, h: PacketHeader, packet: Frame, members: map<Id, Sender>)
    ensures AllProgress(before, before, h, packet, members, {}, [])
  {
  }

  function MoreRetries(retries: seq<Retry>, retry: Option<Retry>): seq<Retry> {
    if retry.Some? then retries + [retry.value] else retries
  }

  lemma MoreRetriesTo(retries: seq<Retry>, retry: Option<Retry>, ch: Sender)
    ensures RetriesTo(MoreRetries(retries, retry), ch)
         == RetriesTo(retries, ch) + if retry.Some? && retry.value.tx == ch then 1 else 0
  {
  }

  lemma MoreTargets(retries: seq<Retry>, retry: Option<Retry>, h: PacketHeader, packet: Frame,
                    members: map<Id, Sender>, done: set<Id>, user: Id)
    requires ForTargets(retries, h, packet, members, done) && user in members
    requires retry.Some? ==> retry.value == Retry(h.RoomIdStr(), user, members[user], packet)
    ensures ForTargets(MoreRetries(retries, retry), h, packet, members, done + {user})
  {
  }

  lemma OneMoreUser(before: Histories, now: Histories, h: PacketHeader, packet: Frame, members: map<Id, Sender>,
                    done: set<Id>, retries: seq<Retry>, user: Id, tx: Sender, retry: Option<Retry>)
    requires AllProgress(before, now, h, packet, members, done, retries)
    requires user in members && user !in done && members[user] == tx && tx in before
    requires retry.Some? <==> h.packetType.SystemCmd? && now[tx].Full()
    requires retry.Some? ==> retry.value == Retry(h.RoomIdStr(), user, tx, packet)
    ensures AllProgress(before, now[tx := Apply(now[tx], Policy(h.packetType, packet))], h, packet, members,
                        done + {user}, MoreRetries(retries, retry))
  {
    var now' := now[tx := Apply(now[tx], Policy(h.packetType, packet))];
    MoreTargets(retries, retry, h, packet, members, done, user);
    forall ch | ch in before
      ensures Progress(before[ch], now'[ch], h, packet, Hits(members, done + {user}, ch),
                       RetriesTo(MoreRetries(retries, retry), ch))
    {
      HitsGrow(members, done, user, ch);
      MoreRetriesTo(retries, retry, ch);
      if ch == tx {
        OneMore(before[ch], now[ch], h, packet, Hits(members, done, ch), RetriesTo(retries, ch));
      }
    }
  }

  type Member = Target<Id, Sender>

  ghost function UsersOf(targets: seq<Member>): set<Id> {
    set i | 0 <= i < |targets| :: targets[i].user
  }

  lemma UsersOfAppend(targets: seq<Member>, next: Member)
    ensures UsersOf(targets + [next]) == UsersOf(targets) + {next.user}
  {
    var more := targets + [next];
    forall u | u in UsersOf(targets) + {next.user} ensures u in UsersOf(more) {
      if u == next.user {
        assert more[|targets|].user == u;
      } else {
        var i :| 0 <= i < |targets| && targets[i].user == u;
        assert more[i].user == u;
      }
    }
  }

  lemma ServedSoFar(targets: seq<Member>, i: nat)
    requires i < |targets| && DistinctUsers(targets)
    ensures UsersOf(targets[..i + 1]) == UsersOf(targets[..i]) + {targets[i].user}
    ensures targets[i].user !in UsersOf(targets[..i])
  {
  }

  /** The channels are in a valid state, with the given histories. */
  ghost predicate Holds(all: set<Sender>, now: Histories)
    reads all
  {
    now.Keys == all && forall ch :: ch in all ==> ch.Valid() && now[ch] == ch.history
  }

  class Router {
    var rooms: Rooms<Id, Sender>

    ghost predicate Valid()
      reads this, ChannelsOf(rooms)
    {
      NoEmptyRoom(rooms) && forall ch :: ch in ChannelsOf(rooms) ==> ch.Valid()
    }

    constructor ()
      ensures Valid() && rooms == map[]
    {
      rooms := map[];
    }

    /** See RegisterSetsKey for what this means. */
    method Register(room: Id, user: Id, tx: Sender) returns (kicked: bool)
      requires Valid() && tx.Valid()
      modifies this
      ensures Valid() && rooms == InsertUser(EnsureRoom(old(rooms), room), room, user, tx)
      ensures kicked <==> Registered(old(rooms), room, user)
    {
      RegisteringChannels(rooms, room, user, tx);
      rooms := EnsureRoom(rooms, room);
      kicked := user in rooms[room];
      rooms := InsertUser(rooms, room, user, tx);
    }

    /** Leaves no empty room behind; see UnregisterClearsKey. */
    method Unregister(room: Id, user: Id)
      requires Valid()
      modifies this
      ensures Valid() && rooms == RemoveIfEmpty(RemoveUser(old(rooms), room, user), room)
    {
      UnregisteringChannels(rooms, room, user);
      if room !in rooms {
        return;
      }
      rooms := RemoveUser(rooms, room, user);
      var shouldCleanup := rooms[room] == map[];
      if shouldCleanup {
        rooms := RemoveIfEmpty(rooms, room);
      }
    }

    /** One send by the packet type's policy; only a refused SystemCmd asks for a retry. */
    method Dispatch(h: PacketHeader, payload: seq<Byte>, user: Id, tx: Sender) returns (retry: Option<Retry>)
      requires tx.Valid()
      modifies tx
      ensures tx.Valid() && tx.history == Apply(old(tx.history), Policy(h.packetType, Encode(h, payload)))
      ensures tx.senders == old(tx.senders)
      ensures retry.Some? <==> h.packetType.SystemCmd? && old(tx.history).Full()
      ensures retry.Some? ==> retry.value == Retry(h.RoomIdStr(), user, tx, Encode(h, payload))
    {
      var packet := EncodePacket(h, payload);
      retry := None;
      match h.packetType
      case RawMotion =>
        tx.SendDropOldest(packet);
      case SystemCmd =>
        var ok := tx.TrySend(packet);
        if !ok {
          retry := Some(Retry(h.RoomIdStr(), user, tx, packet));
        }
      case _ =>
        var _ := tx.TrySend(packet);
    }

    /** Dispatch, seen among all the channels of the router. */
    method DispatchNext(h: PacketHeader, payload: seq<Byte>, user: Id, tx: Sender,
                        ghost all: set<Sender>, ghost now: Histories)
      returns (retry: Option<Retry>)
      requires Holds(all, now) && tx in all
      modifies tx
      ensures Holds(all, now[tx := Apply(now[tx], Policy(h.packetType, Encode(h, payload)))])
      ensures retry.Some? <==> h.packetType.SystemCmd? && now[tx].Full()
      ensures retry.Some? ==> retry.value == Retry(h.RoomIdStr(), user, tx, Encode(h, payload))
    {
      retry := Dispatch(h, payload, user, tx);
      forall ch | ch in all && ch != tx ensures ch.Valid() && now[ch] == ch.history {
        assert old(ch.Valid()) && unchanged(ch);
      }
    }

    /** The (user, sender) pairs of a room, each once, in some order. */
    method Snapshot(members: map<Id, Sender>) returns (targets: seq<Member>)
      ensures TakenFrom(targets, members) && DistinctUsers(targets)
      ensures UsersOf(targets) == members.Keys
    {
      var todo := members.Keys;
      targets := [];
      while todo != {}
        invariant todo <= members.Keys
        invariant forall i :: 0 <= i < |targets| ==> targets[i].user !in todo
        invariant TakenFrom(targets, members) && DistinctUsers(targets)
        invariant UsersOf(targets) == members.Keys - todo
        decreases todo
      {
        var u :| u in todo;
        UsersOfAppend(targets, Target(u, members[u]));
        targets := targets + [Target(u, members[u])];
        todo := todo - {u};
      }
    }

    method ChooseTargets(h: PacketHeader, members: map<Id, Sender>) returns (targets: seq<Member>)
      ensures TakenFrom(targets, members) && DistinctUsers(targets)
      ensures UsersOf(targets) == Targets(members, h)
    {
      if h.targetType.Broadcast? {
        targets := Snapshot(members);
      } else {
        targets := [];
        if h.UserIdStr() in members {
          UsersOfAppend([], Target(h.UserIdStr(), members[h.UserIdStr()]));
          targets := [] + [Target(h.UserIdStr(), members[h.UserIdStr()])];
        }
      }
    }

    /** Dispatches to the targets one by one. */
    method DispatchAll(h: PacketHeader, payload: seq<Byte>, members: map<Id, Sender>, targets: seq<Member>,
                       ghost all: set<Sender>, ghost before: Histories)
      returns (retries: seq<Retry>, ghost now: Histories)
      requires Holds(all, before)
      requires members.Values <= all
      requires TakenFrom(targets, members) && DistinctUsers(targets)
      modifies all
      ensures Holds(all, now)
      ensures AllProgress(before, now, h, Encode(h, payload), members, UsersOf(targets), retries)
    {
      retries := [];
      now := before;
      ghost var packet := Encode(h, payload);
      ghost var done: set<Id> := {};
      NothingDone(before, h, packet, members);
      for i := 0 to |targets|
        invariant done == UsersOf(targets[..i])
        invariant Holds(all, now)
        invariant AllProgress(before, now, h, packet, members, done, retries)
      {
        ServedSoFar(targets, i);
        var Target(user, tx) := targets[i];
        var retry := DispatchNext(h, payload, user, tx, all, now);
        OneMoreUser(before, now, h, packet, members, done, retries, user, tx, retry);
        retries := MoreRetries(retries, retry);
        now := now[tx := Apply(now[tx], Policy(h.packetType, packet))];
        done := done + {user};
      }
      assert targets[..|targets|] == targets;
    }

    /**
     * Every channel receives the packet once for each target user that it serves, and no other
     * channel is touched; a SystemCmd is either accepted or handed to a retry, target by target.
     */
    method Route(h: PacketHeader, payload: seq<Byte>) returns (retries: seq<Retry>)
      requires Valid()
      modifies ChannelsOf(rooms)
      ensures Valid() && rooms == old(rooms)
      ensures var members, users := Members(rooms, h.RoomIdStr()), Targets(Members(rooms, h.RoomIdStr()), h);
        forall ch :: ch in ChannelsOf(rooms) ==>
          Progress(old(ch.history), ch.history, h, Encode(h, payload), Hits(members, users, ch), RetriesTo(retries, ch))
      ensures var members, users := Members(rooms, h.RoomIdStr()), Targets(Members(rooms, h.RoomIdStr()), h);
        forall ch :: ch in ChannelsOf(rooms) ==>
          ch.history == Times(old(ch.history), Policy(h.packetType, Encode(h, payload)), Hits(members, users, ch))
      ensures var members := Members(rooms, h.RoomIdStr());
        ForTargets(retries, h, Encode(h, payload), members, Targets(members, h))
      ensures !h.packetType.SystemCmd? ==> retries == []
    {
      var members := Members(rooms, h.RoomIdStr());
      var targets := ChooseTargets(h, members);
      ghost var before: Histories := map ch | ch in ChannelsOf(rooms) :: ch.history;
      ghost var now: Histories;
      retries, now := DispatchAll(h, payload, members, targets, ChannelsOf(rooms), before);
    }

    /** The size of the flat table. */
    method UserCount() returns (n: nat)
      ensures n == |Flat(rooms)|
    {
      n := 0;
      var todo := rooms.Keys;
      while todo != {}
        invariant todo <= rooms.Keys
        invariant n + UsersIn(rooms, todo) == UsersIn(rooms, rooms.Keys)
        decreases todo
      {
        var r :| r in todo;
        UsersInStep(rooms, todo, r);
        n := n + |rooms[r]|;
        todo := todo - {r};
      }
      UserCountIsFlatSize(rooms);
    }
  }
}

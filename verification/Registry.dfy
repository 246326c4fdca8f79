/**
 * The two-level registry as a value, and the flat table of (room, user) it stands for. K is
 * the type of room and user ids, V whatever identifies a registered sender.
 */
module Registry {
  type Rooms<!K, V> = map<K, map<K, V>>

  // ---- the operations, one atomic access to the maps each ----

  /** entry(room).or_insert_with(new). */
  function EnsureRoom<K(!new), V>(rooms: Rooms<K, V>, room: K): Rooms<K, V> {
    if room in rooms then rooms else rooms[room := map[]]
  }

  function InsertUser<K(!new), V>(rooms: Rooms<K, V>, room: K, user: K, tx: V): Rooms<K, V> {
    if room in rooms then rooms[room := rooms[room][user := tx]] else rooms
  }

  function RemoveUser<K(!new), V>(rooms: Rooms<K, V>, room: K, user: K): Rooms<K, V> {
    if room in rooms then rooms[room := rooms[room] - {user}] else rooms
  }

  /** remove_if(room, is_empty). */
  function RemoveIfEmpty<K(!new), V>(rooms: Rooms<K, V>, room: K): Rooms<K, V> {
    if room in rooms && rooms[room] == map[] then rooms - {room} else rooms
  }

  predicate Registered<K(!new), V>(rooms: Rooms<K, V>, room: K, user: K) {
    room in rooms && user in rooms[room]
  }

  function Members<K(!new), V>(rooms: Rooms<K, V>, room: K): map<K, V> {
    if room in rooms then rooms[room] else map[]
  }

  predicate NoEmptyRoom<K(!new), V>(rooms: Rooms<K, V>) {
    forall r :: r in rooms ==> rooms[r] != map[]
  }

  // ---- the flat table ----

  function Flat<K(!new), V>(rooms: Rooms<K, V>): (f: map<(K, K), V>)
    ensures forall r, u :: (r, u) in f <==> Registered(rooms, r, u)
    ensures forall r, u :: (r, u) in f ==> r in rooms && u in rooms[r] && f[(r, u)] == rooms[r][u]
  {
    map r, u | r in rooms && u in rooms[r] :: (r, u) := rooms[r][u]
  }

  /** A table that finds the registry's entry for every room and user is the flat table. */
  lemma FlatIs<K(!new), V>(rooms: Rooms<K, V>, f: map<(K, K), V>)
    requires forall r, u :: (r, u) in f <==> Registered(rooms, r, u)
    requires forall r, u :: (r, u) in f ==> r in rooms && u in rooms[r] && f[(r, u)] == rooms[r][u]
    ensures Flat(rooms) == f
  {
    var g := Flat(rooms);
    forall k ensures k in f <==> k in g {
      assert k == (k.0, k.1);
    }
    forall k | k in f ensures f[k] == g[k] {
      assert k == (k.0, k.1);
    }
  }

  /** Making an empty room is invisible in the flat table. */
  lemma EnsureIsInvisible<K(!new), V>(rooms: Rooms<K, V>, room: K)
    ensures Flat(EnsureRoom(rooms, room)) == Flat(rooms)
  {
    if room !in rooms {
      var ensured := rooms[room := map[]];
      assert forall r, u :: Registered(ensured, r, u) <==> Registered(rooms, r, u);
      FlatIs(ensured, Flat(rooms));
    }
  }

  /** So is the removal of a room that is found empty: it never discards a sender. */
  lemma RemoveIfEmptyIsInvisible<K(!new), V>(rooms: Rooms<K, V>, room: K)
    ensures Flat(RemoveIfEmpty(rooms, room)) == Flat(rooms)
  {
    FlatIs(RemoveIfEmpty(rooms, room), Flat(rooms));
  }

  /** The inner insert is where register takes effect. */
  lemma InsertTakesEffect<K(!new), V>(rooms: Rooms<K, V>, room: K, user: K, tx: V)
    requires room in rooms
    ensures Flat(InsertUser(rooms, room, user, tx)) == Flat(rooms)[(room, user) := tx]
  {
    FlatIs(InsertUser(rooms, room, user, tx), Flat(rooms)[(room, user) := tx]);
  }

  /** The inner remove is where unregister takes effect. */
  lemma RemoveTakesEffect<K(!new), V>(rooms: Rooms<K, V>, room: K, user: K)
    ensures Flat(RemoveUser(rooms, room, user)) == Flat(rooms) - {(room, user)}
  {
    FlatIs(RemoveUser(rooms, room, user), Flat(rooms) - {(room, user)});
  }

  // ---- targets ----

  /** A member of a room, as a route call takes it from the registry. */
  datatype Target<K, V> = Target(user: K, conn: V)

  ghost predicate DistinctUsers<K, V>(targets: seq<Target<K, V>>) {
    forall i, j :: 0 <= i < j < |targets| ==> targets[i].user != targets[j].user
  }

  ghost predicate TakenFrom<K, V>(targets: seq<Target<K, V>>, members: map<K, V>) {
    forall i :: 0 <= i < |targets| ==> targets[i].user in members && members[targets[i].user] == targets[i].conn
  }

  // ---- counting ----

  /** The sum that user_count computes, over the rooms in the given set. */
  ghost function UsersIn<K(!new), V>(rooms: Rooms<K, V>, names: set<K>): nat
    requires names <= rooms.Keys
  {
    if names == {} then 0
    else
      var r :| r in names;
      |rooms[r]| + UsersIn(rooms, names - {r})
  }

  /** The keys of the flat table that lie in the given rooms. */
  ghost function KeysIn<K(!new), V>(rooms: Rooms<K, V>, names: set<K>): set<(K, K)> {
    set k | k in Flat(rooms).Keys && k.0 in names
  }

  lemma {:induction false} PairsWith<K>(r: K, users: set<K>)
    ensures |set u | u in users :: (r, u)| == |users|
  {
    var pairs := set u | u in users :: (r, u);
    if users == {} {
      assert pairs == {};
    } else {
      var u :| u in users;
      var rest := set w | w in users - {u} :: (r, w);
      PairsWith(r, users - {u});
      assert pairs == rest + {(r, u)};
    }
  }

  lemma KeysInGrow<K(!new), V>(rooms: Rooms<K, V>, names: set<K>, r: K)
    requires r in rooms && r !in names
    ensures |KeysIn(rooms, names + {r})| == |KeysIn(rooms, names)| + |rooms[r]|
  {
    var here := set u | u in rooms[r].Keys :: (r, u);
    PairsWith(r, rooms[r].Keys);
    forall k | k in KeysIn(rooms, names + {r}) ensures k in here + KeysIn(rooms, names) {
      assert k == (k.0, k.1);
    }
    assert KeysIn(rooms, names + {r}) == here + KeysIn(rooms, names);
    assert here !! KeysIn(rooms, names);
  }

  lemma KeysInAll<K(!new), V>(rooms: Rooms<K, V>)
    ensures |KeysIn(rooms, {})| == 0 && |KeysIn(rooms, rooms.Keys)| == |Flat(rooms)|
  {
    assert KeysIn(rooms, {}) == {};
    forall k | k in Flat(rooms).Keys ensures k in KeysIn(rooms, rooms.Keys) {
      assert k == (k.0, k.1);
    }
    assert KeysIn(rooms, rooms.Keys) == Flat(rooms).Keys;
  }

  lemma {:induction false} UsersInCounts<K(!new), V>(rooms: Rooms<K, V>, names: set<K>)
    requires names <= rooms.Keys
    ensures UsersIn(rooms, names) == |KeysIn(rooms, names)|
    decreases names
  {
    if names == {} {
      KeysInAll(rooms);
    } else {
      var r :| r in names && UsersIn(rooms, names) == |rooms[r]| + UsersIn(rooms, names - {r});
      UsersInCounts(rooms, names - {r});
      KeysInGrow(rooms, names - {r}, r);
      assert names - {r} + {r} == names;
    }
  }

  /** The sum does not depend on the order in which the rooms are taken. */
  lemma UsersInStep<K(!new), V>(rooms: Rooms<K, V>, names: set<K>, r: K)
    requires names <= rooms.Keys && r in names
    ensures UsersIn(rooms, names) == |rooms[r]| + UsersIn(rooms, names - {r})
  {
    UsersInCounts(rooms, names);
    UsersInCounts(rooms, names - {r});
    KeysInGrow(rooms, names - {r}, r);
    assert names - {r} + {r} == names;
  }

  /** The rooms that some flat key names. */
  ghost function UsedRooms<K(!new), V>(rooms: Rooms<K, V>): set<K> {
    set k | k in Flat(rooms).Keys :: k.0
  }

  lemma UsedRoomsAreNotEmpty<K(!new), V>(rooms: Rooms<K, V>, r: K)
    ensures r in UsedRooms(rooms) <==> r in rooms && rooms[r] != map[]
  {
    if r in UsedRooms(rooms) {
      var k :| k in Flat(rooms).Keys && k.0 == r;
      assert k == (k.0, k.1);
    }
    if r in rooms && rooms[r] != map[] {
      var u :| u in rooms[r];
      assert (r, u) in Flat(rooms).Keys;
    }
  }

  /** user_count is the size of the flat table. */
  lemma UserCountIsFlatSize<K(!new), V>(rooms: Rooms<K, V>)
    ensures UsersIn(rooms, rooms.Keys) == |Flat(rooms)|
  {
    UsersInCounts(rooms, rooms.Keys);
    KeysInAll(rooms);
  }

  /** room_count is the number of distinct rooms in the flat table iff no empty room is left behind. */
  lemma RoomCountIsFlatRooms<K(!new), V>(rooms: Rooms<K, V>)
    ensures |rooms| == |UsedRooms(rooms)| <==> NoEmptyRoom(rooms)
  {
    forall r ensures r in UsedRooms(rooms) <==> r in rooms && rooms[r] != map[] {
      UsedRoomsAreNotEmpty(rooms, r);
    }
    assert UsedRooms(rooms) <= rooms.Keys;
    if NoEmptyRoom(rooms) {
      assert UsedRooms(rooms) == rooms.Keys;
    } else {
      var r :| r in rooms && rooms[r] == map[];
      SubsetCardinality(UsedRooms(rooms), rooms.Keys - {r});
    }
  }

  lemma {:induction false} SubsetCardinality<T>(a: set<T>, b: set<T>)
    requires a <= b
    ensures |a| <= |b|
  {
    assert b == a + (b - a);
  }
}

/** A child's pool of cached backend connections: lookup by user, database and protocol, eviction of
    the connection closed longest ago, and the alarm that expires idle connections. */
module ConnectionPool {
  import opened Options

  const TMINTMAX: int := 0x7fff_ffff

  datatype Key = Key(user: string, database: string, major: int)

  datatype StartupPacket = StartupPacket(user: string, database: string, major: int, bytes: seq<bv8>) {
    function Id(): Key { Key(user, database, major) }
  }

  /** A cached connection; a close time of 0 marks one in use. */
  datatype Conn = Conn(sp: StartupPacket, closetime: int)

  /** The slot holds a connection for another user, database or protocol. */
  predicate ForAnother(slot: Option<Conn>, sp: StartupPacket) {
    slot.Some? && (slot.value.sp.user != sp.user || slot.value.sp.database != sp.database || slot.value.sp.major != sp.major)
  }

  type Pool = seq<Option<Conn>>

  ghost predicate HasKey(p: Pool, i: int, k: Key) {
    0 <= i < |p| && p[i].Some? && p[i].value.sp.Id() == k
  }

  ghost predicate Idle(p: Pool, i: int) {
    0 <= i < |p| && p[i].Some? && p[i].value.closetime != 0
  }

  /** No two occupied slots share user, database and protocol. */
  ghost predicate KeysUnique(p: Pool) {
    forall i, j, k :: HasKey(p, i, k) && HasKey(p, j, k) ==> i == j
  }

  /** The map a pool stands for. */
  ghost function AsMap(p: Pool): map<Key, Conn>
    requires KeysUnique(p)
  {
    assert forall i, j | 0 <= i < |p| && p[i].Some? && 0 <= j < |p| && p[j].Some? && p[i].value.sp.Id() == p[j].value.sp.Id() ::
        HasKey(p, i, p[i].value.sp.Id()) && HasKey(p, j, p[i].value.sp.Id());
    map i | 0 <= i < |p| && p[i].Some? :: p[i].value.sp.Id() := p[i].value
  }

  lemma MapEntry(p: Pool, i: nat)
    requires KeysUnique(p) && i < |p| && p[i].Some?
    ensures p[i].value.sp.Id() in AsMap(p) && AsMap(p)[p[i].value.sp.Id()] == p[i].value
  {
    var k := p[i].value.sp.Id();
    assert HasKey(p, i, k);
    forall j | 0 <= j < |p| && p[j].Some? && p[j].value.sp.Id() == k ensures j == i {
      assert HasKey(p, j, k);
    }
  }

  lemma MapKey(p: Pool, k: Key)
    requires KeysUnique(p)
    ensures k in AsMap(p) <==> exists i :: HasKey(p, i, k)
    ensures k in AsMap(p) ==> AsMap(p)[k].sp.Id() == k
  {
    if k in AsMap(p) {
      var i :| 0 <= i < |p| && p[i].Some? && p[i].value.sp.Id() == k;
      assert HasKey(p, i, k);
      MapEntry(p, i);
    }
    if exists i :: HasKey(p, i, k) {
      var i :| HasKey(p, i, k);
      MapEntry(p, i);
    }
  }

  /** Emptying a slot removes its key from the map and touches no other. */
  lemma ClearRemoves(p: Pool, i: nat)
    requires KeysUnique(p) && i < |p| && p[i].Some?
    ensures KeysUnique(p[i := None]) && AsMap(p[i := None]) == AsMap(p) - {p[i].value.sp.Id()}
  {
    var q, key := p[i := None], p[i].value.sp.Id();
    assert forall j, k :: HasKey(q, j, k) <==> j != i && HasKey(p, j, k);
    assert HasKey(p, i, key);
    SameEntries(p, q, key);
  }

  lemma SameEntries(p: Pool, q: Pool, key: Key)
    requires KeysUnique(p) && KeysUnique(q) && |p| == |q|
    requires forall j, k :: HasKey(q, j, k) <==> HasKey(p, j, k) && k != key
    requires forall j :: 0 <= j < |q| && q[j].Some? ==> q[j] == p[j]
    ensures AsMap(q) == AsMap(p) - {key}
  {
    forall k ensures k in AsMap(q) <==> k in AsMap(p) && k != key {
      MapKey(p, k);
      MapKey(q, k);
    }
    forall k | k in AsMap(q) ensures AsMap(q)[k] == AsMap(p)[k] {
      MapKey(q, k);
      var j :| HasKey(q, j, k);
      MapEntry(p, j);
      MapEntry(q, j);
    }
  }

  /** Filling an empty slot with a new key, or rewriting a slot under its own key, is a map update. */
  lemma StoreUpdates(p: Pool, i: nat, c: Conn)
    requires KeysUnique(p) && i < |p|
    requires forall j :: HasKey(p, j, c.sp.Id()) ==> j == i
    requires p[i].Some? ==> p[i].value.sp.Id() == c.sp.Id()
    ensures KeysUnique(p[i := Some(c)]) && AsMap(p[i := Some(c)]) == AsMap(p)[c.sp.Id() := c]
  {
    var q, key := p[i := Some(c)], c.sp.Id();
    assert forall j, k :: HasKey(q, j, k) <==> if j == i then k == key else HasKey(p, j, k);
    forall k ensures k in AsMap(q) <==> k in AsMap(p) || k == key {
      MapKey(p, k);
      MapKey(q, k);
      if k == key { assert HasKey(q, i, k); }
      if k in AsMap(p) && k != key {
        var j :| HasKey(p, j, k);
        assert HasKey(q, j, k);
      }
    }
    forall k | k in AsMap(q) ensures AsMap(q)[k] == AsMap(p)[key := c][k] {
      MapKey(q, k);
      var j :| HasKey(q, j, k);
      MapEntry(q, j);
      if j != i { MapEntry(p, j); }
    }
  }

  /** The connection closed longest ago. */
  ghost predicate Oldest(p: Pool, v: int) {
    0 <= v < |p| && p[v].Some? &&
    forall i :: 0 <= i < |p| && p[i].Some? ==> p[v].value.closetime <= p[i].value.closetime
  }

  ghost predicate Full(p: Pool) {
    forall i :: 0 <= i < |p| ==> p[i].Some?
  }

  /** Every idle connection will be looked at in time: the expiry flag is up, or an alarm is due no
      later than the connection's expiry. */
  ghost predicate Watched(p: Pool, life: nat, alarm: Option<int>, expired: bool) {
    life > 0 ==> forall i :: Idle(p, i) ==> expired || (alarm.Some? && alarm.value <= p[i].value.closetime + life)
  }

  ghost predicate ExpiresBy(p: Pool, life: nat, now: int, i: int) {
    Idle(p, i) && now >= p[i].value.closetime + life
  }

  /** How a database node takes a new connection: whether it is live, can be connected to, and accepts
      the startup packet. */
  datatype Node = Node(valid: bool, connects: bool, takesPacket: bool)

  datatype Opened = AllOpened | NothingToOpen | ChildExits

  ghost predicate SomeValid(nodes: seq<Node>) { exists k :: 0 <= k < |nodes| && nodes[k].valid }
  ghost predicate SomeUnreachable(nodes: seq<Node>) { exists k :: 0 <= k < |nodes| && nodes[k].valid && !nodes[k].connects }
  ghost predicate AllTakePacket(nodes: seq<Node>) { forall k :: 0 <= k < |nodes| && nodes[k].valid ==> nodes[k].takesPacket }

  /** There is a valid node, and all of them can be connected to and accept the startup packet. */
  ghost predicate Reached(nodes: seq<Node>) {
    SomeValid(nodes) && !SomeUnreachable(nodes) && AllTakePacket(nodes)
  }

  lemma OneKeyLess(m: map<Key, Conn>, k: Key, c: Conn)
    ensures (m - {k} - {})[k := c] == m[k := c] && m - {k} - {} == m - {k}
  {
  }

  lemma Slots(p: Pool, sp: StartupPacket)
    requires KeysUnique(p)
    ensures forall i :: 0 <= i < |p| && ForAnother(p[i], sp) ==> !HasKey(p, i, sp.Id())
    ensures sp.Id() in AsMap(p) && AsMap(p)[sp.Id()].sp == sp <==> exists i :: 0 <= i < |p| && p[i].Some? && p[i].value.sp == sp
  {
    MapKey(p, sp.Id());
    if i: nat :| i < |p| && p[i].Some? && p[i].value.sp == sp {
      MapEntry(p, i);
    }
    if sp.Id() in AsMap(p) && AsMap(p)[sp.Id()].sp == sp {
      var i: nat :| HasKey(p, i, sp.Id());
      MapEntry(p, i);
    }
  }

  class Child {
    const pool: array<Option<Conn>>
    const life: nat                // connection_life_time
    var alarm: Option<int>         // when the pending SIGALRM is due
    var expired: bool              // backend_timer_expired
    var index: nat                 // pool_index

    ghost predicate Valid(now: int)
      reads this, pool
    {
      pool.Length > 0 && KeysUnique(pool[..]) && Watched(pool[..], life, alarm, expired) &&
      (forall i :: 0 <= i < pool.Length && pool[i].Some? ==> 0 <= pool[i].value.closetime <= now) &&
      0 < now < TMINTMAX && (alarm.Some? ==> alarm.value > now)
    }

    constructor (maxPool: nat, life: nat, now: int)
      requires maxPool > 0 && 0 < now < TMINTMAX
      ensures Valid(now) && pool.Length == maxPool && this.life == life && fresh(pool)
      ensures AsMap(pool[..]) == map[]
    {
      pool := new Option<Conn>[maxPool](_ => None);
      this.life, alarm, expired, index := life, None, false, 0;
      new;
      assert forall i, k :: !HasKey(pool[..], i, k);
    }

    /** Time passes; a due alarm fires and raises the flag. */
    method PassTime(was: int, now: int)
      requires Valid(was) && was <= now < TMINTMAX
      modifies this`alarm, this`expired
      ensures Valid(now) && pool[..] == old(pool[..])
    {
      if alarm.Some? && alarm.value <= now {
        expired := true;
        alarm := None;
      }
    }

    /** Finds the connection for a client and marks it in use; broken says whether its sockets would
        fail the check, in which case the connection is dropped. */
    method GetCp(user: string, database: string, major: int, checkSocket: bool, broken: bool, ghost now: int)
      returns (r: Option<nat>, ghost dropped: bool)
      requires Valid(now)
      modifies this`index, pool
      ensures Valid(now)
      ensures var k := Key(user, database, major);
              match r
              case Some(i) => i < pool.Length && HasKey(old(pool[..]), i, k) && !dropped && !(checkSocket && broken) && index == i &&
                              pool[..] == old(pool[..])[i := Some(old(pool[i]).value.(closetime := 0))] &&
                              AsMap(pool[..]) == old(AsMap(pool[..]))[k := old(pool[i]).value.(closetime := 0)]
              case None => k !in AsMap(pool[..]) && AsMap(pool[..]) == old(AsMap(pool[..])) - {k} &&
                           (dropped <==> k in old(AsMap(pool[..]))) && (dropped ==> checkSocket && broken) &&
                           (!dropped ==> pool[..] == old(pool[..])) && (dropped ==> !Full(pool[..]))
      ensures forall i :: 0 <= i < pool.Length && !HasKey(old(pool[..]), i, Key(user, database, major)) ==> pool[i] == old(pool[i])
    {
      r, dropped := None, false;
      ghost var p, k := pool[..], Key(user, database, major);
      for i := 0 to pool.Length
        invariant pool[..] == p && forall j :: 0 <= j < i ==> !HasKey(p, j, k)
      {
        if pool[i].Some? && pool[i].value.sp.major == major && pool[i].value.sp.user == user &&
           pool[i].value.sp.database == database {
          assert HasKey(p, i, k);
          MapEntry(p, i);
          var conn := pool[i].value.(closetime := 0);
          if checkSocket && broken {
            pool[i] := None;
            dropped := true;
            ClearRemoves(p, i);
            assert pool[..] == p[i := None];
            return;
          }
          pool[i] := Some(conn);
          StoreUpdates(p, i, conn);
          assert pool[..] == p[i := Some(conn)];
          index := i;
          r := Some(i);
          return;
        }
      }
      MapKey(p, k);
    }

    /** Disconnects and forgets a connection. */
    method DiscardCp(user: string, database: string, major: int, ghost now: int)
      requires Valid(now)
      modifies this`index, pool
      ensures Valid(now)
      ensures var k := Key(user, database, major);
              AsMap(pool[..]) == old(AsMap(pool[..])) - {k} &&
              (k in old(AsMap(pool[..])) ==> !Full(pool[..])) &&
              forall i :: 0 <= i < pool.Length && !HasKey(old(pool[..]), i, k) ==> pool[i] == old(pool[i])
    {
      hide AsMap;
      var p, dropped := GetCp(user, database, major, false, false, now);
      if p == None { return; }
      ghost var mid := pool[..];
      pool[p.value] := None;
      ClearRemoves(mid, p.value);
      assert pool[..] == mid[p.value := None];
    }

    /** The slot for a new connection: the first empty one, else the oldest connection's, which is dropped. */
    method MakeRoom(ghost now: int) returns (i: nat, ghost victim: Option<Conn>)
      requires Valid(now)
      modifies this`index, pool
      ensures Valid(now) && i < pool.Length && index == i && pool[i] == None && pool[..] == old(pool[..])[i := None]
      ensures victim == old(pool[i])
      ensures victim.Some? ==> Full(old(pool[..])) && Oldest(old(pool[..]), i)
      ensures AsMap(pool[..]) == if victim.Some? then old(AsMap(pool[..])) - {victim.value.sp.Id()} else old(AsMap(pool[..]))
    {
      ghost var p := pool[..];
      for j := 0 to pool.Length
        invariant forall k :: 0 <= k < j ==> pool[k].Some?
      {
        if pool[j] == None {
          index := j;
          assert pool[..] == p[j := None];
          return j, None;
        }
      }
      i := 0;
      var closetime := pool[0].value.closetime;
      for j := 0 to pool.Length
        invariant i < pool.Length && pool[i].value.closetime == closetime
        invariant forall k :: 0 <= k < j ==> closetime <= pool[k].value.closetime
      {
        if pool[j].value.closetime < closetime {
          closetime := pool[j].value.closetime;
          i := j;
        }
      }
      index := i;
      victim := pool[i];
      ClearRemoves(p, i);
      pool[i] := None;
      assert pool[..] == p[i := None];
    }

    /** new_connection: opens a connection to each valid node; the child ends at the first that fails. */
    method NewConnection(nodes: seq<Node>) returns (o: Opened)
      ensures o == ChildExits <==> SomeUnreachable(nodes)
      ensures o == AllOpened <==> SomeValid(nodes) && !SomeUnreachable(nodes)
    {
      var count := 0;
      for i := 0 to |nodes|
        invariant count > 0 <==> exists k :: 0 <= k < i && nodes[k].valid
        invariant forall k :: 0 <= k < i && nodes[k].valid ==> nodes[k].connects
      {
        if !nodes[i].valid { continue; }
        if !nodes[i].connects { return ChildExits; }
        count := count + 1;
      }
      o := if count > 0 then AllOpened else NothingToOpen;
    }

    /** The loop that sends the startup packet to each valid node. */
    method SendStartupPackets(nodes: seq<Node>) returns (ok: bool)
      ensures ok <==> AllTakePacket(nodes)
    {
      ok := true;
      for i := 0 to |nodes|
        invariant ok && forall k :: 0 <= k < i && nodes[k].valid ==> nodes[k].takesPacket
      {
        if nodes[i].valid && !nodes[i].takesPacket { return false; }
      }
    }

    /** Connects a client whose key is not in the pool. nodes tells how the backends take it, authentic
        whether the client passes authentication; exits, that the child has ended. */
    method ConnectBackend(sp: StartupPacket, nodes: seq<Node>, authentic: bool, ghost now: int)
      returns (r: Option<nat>, exits: bool, ghost victim: Option<Conn>)
      requires Valid(now) && sp.Id() !in AsMap(pool[..])
      modifies this`index, pool
      ensures Valid(now)
      ensures victim.Some? ==> Full(old(pool[..])) && exists v :: Oldest(old(pool[..]), v) && old(pool[..])[v] == victim
      ensures exits <==> SomeUnreachable(nodes)
      ensures r.Some? <==> Reached(nodes) && authentic
      ensures r.Some? ==> r.value < pool.Length && pool[r.value] == Some(Conn(sp, 0)) && index == r.value
      ensures var kept := if victim.Some? then old(AsMap(pool[..])) - {victim.value.sp.Id()} else old(AsMap(pool[..]));
              AsMap(pool[..]) == if r.Some? then kept[sp.Id() := Conn(sp, 0)] else kept
      ensures forall i :: 0 <= i < pool.Length && old(pool[i]).Some? && old(pool[i]) != victim ==> pool[i] == old(pool[i])
      ensures victim.Some? ==> forall i :: 0 <= i < pool.Length ==>
                old(pool[i]).Some? && victim.value.closetime <= old(pool[i]).value.closetime
    {
      hide AsMap;
      ghost var p := pool[..];
      var i;
      i, victim := MakeRoom(now);
      exits := false;
      var made := NewConnection(nodes);
      if made != AllOpened { return None, made == ChildExits, victim; }
      ghost var room := pool[..];
      MapKey(p, sp.Id());
      MapKey(room, sp.Id());
      pool[i] := Some(Conn(sp, 0));
      StoreUpdates(room, i, Conn(sp, 0));
      assert pool[..] == room[i := Some(Conn(sp, 0))];
      var sent := SendStartupPackets(nodes);
      if !sent || !authentic {
        assert forall j :: HasKey(pool[..], j, sp.Id()) && j != i ==> HasKey(room, j, sp.Id());
        hide Oldest, Full;
        DiscardCp(sp.user, sp.database, sp.major, now);
        return None, false, victim;
      }
      r := Some(i);
    }

    /** Looks for a connection opened with the client's own startup packet; one opened with another
        packet under the same key is discarded. */
    method FindIdentical(sp: StartupPacket, broken: bool, ghost now: int) returns (r: Option<nat>)
      requires Valid(now)
      modifies this`index, pool
      ensures Valid(now)
      ensures var m := old(AsMap(pool[..]));
              r.Some? <==> sp.Id() in m && m[sp.Id()].sp == sp && !broken
      ensures match r
              case Some(i) => i < pool.Length && index == i && pool[i] == Some(Conn(sp, 0)) &&
                              old(pool[..])[i].Some? && old(pool[..])[i].value.sp == sp &&
                              AsMap(pool[..]) == old(AsMap(pool[..]))[sp.Id() := Conn(sp, 0)]
              case None => AsMap(pool[..]) == old(AsMap(pool[..])) - {sp.Id()} &&
                           if sp.Id() in old(AsMap(pool[..])) then !Full(pool[..]) else pool[..] == old(pool[..])
      ensures forall i :: 0 <= i < pool.Length && !HasKey(old(pool[..]), i, sp.Id()) ==> pool[i] == old(pool[i])
    {
      hide AsMap;
      ghost var p := pool[..];
      ghost var dropped;
      r, dropped := GetCp(sp.user, sp.database, sp.major, true, broken, now);
      if r.Some? {
        MapEntry(p, r.value);
        var found := true;
        if |sp.bytes| != |pool[r.value].value.sp.bytes| {
          found := false;
        } else if sp.bytes != pool[r.value].value.sp.bytes {
          found := false;
        }
        if !found {
          DiscardCp(sp.user, sp.database, sp.major, now);
          r := None;
        }
      }
    }

    /** One turn of the child's loop up to the start of the session: reuse a connection whose startup
        packet is the client's own, or connect afresh. */
    method ServeClient(sp: StartupPacket, broken: bool, nodes: seq<Node>, authentic: bool, ghost now: int)
      returns (r: Option<nat>, reused: bool, exits: bool, ghost victim: Option<Conn>)
      requires Valid(now)
      modifies this`index, pool
      ensures Valid(now)
      ensures r.Some? ==> r.value < pool.Length && index == r.value && pool[r.value] == Some(Conn(sp, 0))
      // A reused connection was opened with a byte-identical startup packet, and such a connection
      // is reused whenever its sockets are sound.
      ensures reused ==> r.Some? && old(pool[..])[r.value].Some? && old(pool[..])[r.value].value.sp == sp
      ensures var m := old(AsMap(pool[..]));
              reused <==> sp.Id() in m && m[sp.Id()].sp == sp && !broken
      // A new one is made iff every valid node, and there is one, takes it and the client is authentic.
      ensures !reused ==> (r.Some? <==> Reached(nodes) && authentic) && (exits <==> SomeUnreachable(nodes))
      ensures reused ==> !exits
      ensures !reused ==> (r.Some? <==> authentic && (exists k :: 0 <= k < |nodes| && nodes[k].valid) &&
                                        forall k :: 0 <= k < |nodes| && nodes[k].valid ==> nodes[k].connects && nodes[k].takesPacket)
      // A connection is evicted only when no slot is empty and the client's key has none; the oldest goes.
      ensures victim.Some? ==> !reused && Full(old(pool[..])) && sp.Id() !in old(AsMap(pool[..])) &&
                               exists v :: Oldest(old(pool[..]), v) && old(pool[..])[v] == victim
      ensures var m := old(AsMap(pool[..])) - {sp.Id()} - (if victim.Some? then {victim.value.sp.Id()} else {});
              AsMap(pool[..]) == if r.Some? then m[sp.Id() := Conn(sp, 0)] else m
      // Slot by slot: what was opened for another user, database or protocol stays, unless it is the one evicted,
      // and that one was closed no later than any other.
      ensures forall i :: 0 <= i < pool.Length && ForAnother(old(pool[i]), sp) && old(pool[i]) != victim ==> pool[i] == old(pool[i])
      ensures victim.Some? ==> forall i :: 0 <= i < pool.Length ==>
                old(pool[i]).Some? && victim.value.closetime <= old(pool[i]).value.closetime
      ensures reused <==> !broken && exists i :: 0 <= i < pool.Length && old(pool[i]).Some? && old(pool[i]).value.sp == sp
    {
      Slots(pool[..], sp);
      assert Reached(nodes) <==> (exists k :: 0 <= k < |nodes| && nodes[k].valid) &&
                                 forall k :: 0 <= k < |nodes| && nodes[k].valid ==> nodes[k].connects && nodes[k].takesPacket;
      ghost var m := AsMap(pool[..]);
      victim := None;
      r := FindIdentical(sp, broken, now);
      reused := r.Some?;
      exits := false;
      hide *;
      OneKeyLess(m, sp.Id(), Conn(sp, 0));
      if !reused {
        r, exits, victim := ConnectBackend(sp, nodes, authentic, now);
      }
    }

    /** The session is over and its connection is kept: note the time and make sure an alarm is pending. */
    method ConnectionPoolTimer(backend: nat, now: int)
      requires Valid(now) && backend < pool.Length && pool[backend].Some?
      modifies this`alarm, pool
      ensures Valid(now)
      ensures pool[..] == old(pool[..])[backend := Some(old(pool[backend]).value.(closetime := now))]
      ensures life > 0 && !expired ==> alarm.Some? && alarm.value <= now + life
    {
      ghost var p := pool[..];
      var conn := pool[backend].value.(closetime := now);
      StoreUpdates(p, backend, conn) by { assert HasKey(p, backend, conn.sp.Id()); }
      pool[backend] := Some(conn);
      assert pool[..] == p[backend := Some(conn)];
      assert forall k :: Idle(pool[..], k) <==> k == backend || Idle(p, k);
      if life == 0 { return; }
      for i := 0 to pool.Length
        invariant forall k :: 0 <= k < i && k != backend ==> !Idle(p, k)
      {
        if pool[i] == None { continue; }
        if i != backend && pool[i].value.closetime != 0 {
          assert Idle(p, i);
          assert expired || (alarm.Some? && alarm.value <= p[i].value.closetime + life);
          return;
        }
      }
      alarm := Some(now + life);
    }

    /** Discards exactly the connections whose idle time is up, and sets the alarm for the earliest left. */
    method BackendTimer(now: int)
      requires Valid(now) && expired
      modifies this`alarm, pool
      ensures Valid(now)
      ensures forall i :: 0 <= i < pool.Length ==>
                pool[i] == if ExpiresBy(old(pool[..]), life, now, i) then None else old(pool[i])
      ensures forall i :: 0 <= i < pool.Length ==>
                pool[i] == if old(pool[i]).Some? && old(pool[i]).value.closetime != 0 && now - old(pool[i]).value.closetime >= life
                           then None else old(pool[i])
      ensures forall i :: 0 <= i < pool.Length && pool[i].Some? && pool[i].value.closetime != 0 ==>
                alarm.Some? && now < alarm.value <= pool[i].value.closetime + life
      // The flag may now be lowered: the alarm alone watches what is left, and it is strictly in the future.
      ensures Watched(pool[..], life, alarm, false)
      ensures if exists i :: Idle(pool[..], i)
              then alarm.Some? && alarm.value > now && exists i :: Idle(pool[..], i) && alarm.value == pool[i].value.closetime + life
              else alarm == old(alarm)
    {
      ghost var p := pool[..];
      var nearest := TMINTMAX;
      for i := 0 to pool.Length
        invariant KeysUnique(pool[..]) && alarm == old(alarm)
        invariant forall k :: 0 <= k < pool.Length ==> pool[k] == if k < i && ExpiresBy(p, life, now, k) then None else p[k]
        invariant forall k :: 0 <= k < i && Idle(pool[..], k) ==> nearest <= pool[k].value.closetime
        invariant nearest == TMINTMAX || exists k :: 0 <= k < i && Idle(pool[..], k) && nearest == pool[k].value.closetime
        invariant nearest <= TMINTMAX
      {
        if pool[i] == None { continue; }
        if pool[i].value.closetime != 0 {
          ghost var q := pool[..];
          if now >= pool[i].value.closetime + life {
            ClearRemoves(q, i);
            pool[i] := None;
            assert pool[..] == q[i := None];
          } else if pool[i].value.closetime < nearest {
            nearest := pool[i].value.closetime;
            assert Idle(pool[..], i);
          }
        }
      }
      if nearest != TMINTMAX {
        var delay := life - (now - nearest);
        if delay <= 0 {
          delay := 1;
        }
        alarm := Some(now + delay);
      }
    }

    /** The check made before and after accepting a client. */
    method CheckTimer(now: int)
      requires Valid(now)
      modifies this`alarm, this`expired, pool
      ensures Valid(now) && !expired
      ensures forall i :: 0 <= i < pool.Length ==>
                pool[i] == if old(expired) && old(pool[i]).Some? && old(pool[i]).value.closetime != 0 &&
                              now - old(pool[i]).value.closetime >= life
                           then None else old(pool[i])
    {
      if expired {
        BackendTimer(now);
        expired := false;
      }
    }
  }
}

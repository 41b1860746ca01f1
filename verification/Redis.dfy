/**
 The part of a Redis server that the library talks to: one stream with one
 consumer group, the lock keys, the dead-letter stream and a clock. Each
 command is one atomic function on this state.
 */
module Redis {
  import opened Entry

  /** A stream id as one number (milliseconds in the high part, sequence in the low part). */
  type Id = nat

  /** The consumer id of a client, also the value it stores in the lock keys it owns. */
  type ClientId = string

  datatype Delivery = Delivery(consumer: ClientId, at: nat)

  datatype Lock = Lock(owner: ClientId, expiresAt: nat)

  datatype Server = Server(
    now: nat,
    lastId: Id,                  // largest id generated so far
    entries: map<Id, Fields>,
    cursor: Id,                  // the group's last-delivered id
    pel: map<Id, Delivery>,      // the group's pending entries list
    locks: map<string, Lock>,
    dlq: seq<Fields>)

  predicate Exists(r: Server, key: string) {
    key in r.locks && r.now < r.locks[key].expiresAt
  }

  /** XACK of one id; it reports 1 exactly when the id was pending. */
  function XAck(r: Server, id: Id): Server {
    r.(pel := r.pel - {id})
  }

  function XAdd(r: Server, newId: Id, f: Fields): Server
    requires r.lastId < newId
  {
    r.(lastId := newId, entries := r.entries[newId := f])
  }

  function XAddDead(r: Server, f: Fields): Server {
    r.(dlq := r.dlq + [f])
  }

  function XDel(r: Server, id: Id): Server {
    r.(entries := r.entries - {id})
  }

  /** The undelivered ids up to `upTo`. */
  function Undelivered(r: Server, upTo: Id): set<Id> {
    set id | id in r.entries && r.cursor < id <= upTo
  }

  /** XREADGROUP with ">": every entry after the cursor, up to `upTo`, becomes pending for `c`. */
  function XReadGroup(r: Server, c: ClientId, upTo: Id): Server
    requires r.cursor <= upTo
  {
    r.(cursor := upTo,
       pel := r.pel + map id | id in Undelivered(r, upTo) :: Delivery(c, r.now))
  }

  /** Members of `ids` below `bound`, in ascending order. */
  function Ascending(ids: set<Id>, bound: nat): (s: seq<Id>)
    ensures forall id :: id in s <==> id in ids && id < bound
    ensures forall i, j :: 0 <= i < j < |s| ==> s[i] < s[j]
  {
    if bound == 0 then []
    else
      var low := Ascending(ids, bound - 1);
      assert forall i :: 0 <= i < |low| ==> low[i] in low;
      if bound - 1 in ids then low + [bound - 1] else low
  }

  lemma InOrder(s: seq<Id>, i: nat)
    requires i < |s| && forall i, j :: 0 <= i < j < |s| ==> s[i] < s[j]
    ensures s[0] <= s[i] && (i > 0 ==> s[0] != s[i])
  {
  }

  /** The smallest member comes first. */
  lemma LeastFirst(ids: set<Id>, bound: nat, id: Id)
    requires id in ids && id < bound && forall x :: x in ids ==> id <= x
    ensures Ascending(ids, bound) != [] && Ascending(ids, bound)[0] == id
  {
    var s := Ascending(ids, bound);
    assert id in s;
    var i :| 0 <= i < |s| && s[i] == id;
    InOrder(s, i);
    assert s[0] in s;
  }

  lemma Single(ids: set<Id>, bound: nat, id: Id)
    requires id in ids && id < bound && forall x :: x in ids && x < bound ==> x == id
    ensures Ascending(ids, bound) == [id]
  {
    var s := Ascending(ids, bound);
    assert id in s;
    forall i: nat | i < |s| ensures i == 0 && s[i] == id {
      assert s[0] in s && s[i] in s;
      InOrder(s, i);
    }
  }

  function IdleIds(r: Server, minIdle: nat): set<Id> {
    set id | id in r.pel && r.pel[id].at + minIdle <= r.now
  }

  /** XPENDING with IDLE and COUNT: the smallest pending ids that have been idle long enough. */
  function XPending(r: Server, minIdle: nat, count: nat): (page: seq<Id>)
    ensures |page| <= count
    ensures forall id :: id in page ==> id in IdleIds(r, minIdle)
  {
    var all := Ascending(IdleIds(r, minIdle), r.lastId + 1);
    if |all| <= count then all else all[..count]
  }

  /** SET NX PX: taken only when no unexpired key is there. */
  function SetNX(r: Server, key: string, c: ClientId, ttl: nat): Server {
    if Exists(r, key) then r else r.(locks := r.locks[key := Lock(c, r.now + ttl)])
  }

  /** Extend succeeds for the owner, and for anyone once the key is gone (it is then re-created). */
  predicate CanExtend(r: Server, key: string, c: ClientId) {
    !Exists(r, key) || r.locks[key].owner == c
  }

  function Extend(r: Server, key: string, c: ClientId, ttl: nat): Server {
    if CanExtend(r, key, c) then r.(locks := r.locks[key := Lock(c, r.now + ttl)]) else r
  }

  /** Delete-if-mine. */
  function Unlock(r: Server, key: string, c: ClientId): Server {
    if Exists(r, key) && r.locks[key].owner == c then r.(locks := r.locks - {key}) else r
  }
}

/**
 What the recovery protocol guarantees in every reachable state, for any number
 of clients and any interleaving: no task is lost or doubled, an id has one
 winner, retries are bounded, payloads survive, and Redis is left in order.
 */
module Guarantees {
  import opened Wrappers
  import opened Decimal
  import opened MutexKey
  import opened Entry
  import opened Redis
  import opened Protocol
  import opened Invariant
  import opened Preservation

  lemma ReachableInv(cfg: Config, s: State)
    requires ValidConfig(cfg) && Reachable(cfg, s)
    ensures Inv(cfg, s)
  {
    hide Inv, Init, Step;
    var tr, es :| Run(cfg, tr, es) && tr[|es|] == s;
    RunInv(cfg, tr, es, |es|);
  }

  // ---- Conservation ----

  /** A place where a task can be found. */
  datatype Place =
    | Undelivered(id: Id)      // in the stream, behind the cursor
    | InPel(id: Id)            // delivered and unacknowledged
    | InHand(p: ProcId)        // a recoverer is between its won XACK and its XADD
    | DeadLetter(i: nat)       // in the dead-letter stream
    | Closed(id: Id)           // finished, dropped, lost in the ack-add gap, or discarded

  ghost predicate IsTask(s: State, t: Id) {
    t in s.ledger.book && s.ledger.book[t].origin == t && s.ledger.base < t
  }

  ghost predicate CopyOf(s: State, t: Id, id: Id) {
    id in s.ledger.book && s.ledger.book[id].origin == t
  }

  predicate ClosedStatus(st: Status) {
    st.Finished? || st.Dropped? || st.Lost? || st.Discarded?
  }

  /** Every place of task `t`, read off the server, the processes and the closed ids. */
  ghost function Places(s: State, t: Id): set<Place> {
    (set id | id in s.redis.entries && s.redis.cursor < id && CopyOf(s, t, id) :: Undelivered(id)) +
    (set id | id in s.redis.pel && CopyOf(s, t, id) :: InPel(id)) +
    (set p | p in s.procs && Holding(s.procs[p].phase) && CopyOf(s, t, s.procs[p].phase.id) :: InHand(p)) +
    (set i | 0 <= i < |s.redis.dlq| && i < |s.ledger.deadFrom| && CopyOf(s, t, s.ledger.deadFrom[i]) :: DeadLetter(i)) +
    (set id | id in s.ledger.book && CopyOf(s, t, id) && ClosedStatus(s.ledger.book[id].status) :: Closed(id))
  }

  /** The place that the status of an id names. */
  ghost function PlaceOf(s: State, id: Id): Place
    requires id in s.ledger.book
  {
    match s.ledger.book[id].status
    case Waiting => Undelivered(id)
    case Pending => InPel(id)
    case Held => if s.ledger.book[id].winner.Some? then InHand(s.ledger.book[id].winner.value) else Closed(id)
    case InDlq(i) => DeadLetter(i)
    case _ => Closed(id)
  }

  /** Whatever occupies a place is a copy that has not been re-queued further. */
  lemma PlaceHasCopy(cfg: Config, s: State, t: Id, pl: Place) returns (id: Id)
    requires Inv(cfg, s) && pl in Places(s, t)
    ensures CopyOf(s, t, id) && !s.ledger.book[id].status.Superseded? && PlaceOf(s, id) == pl
  {
    hide LocalsInv, BookInv, HeldInv, DataStreamName, RetryCount, DeadFields;
    match pl
    case Undelivered(i) =>
      id := i;
      assert StatusOk(s, id);
    case InPel(i) => id := i;
    case InHand(p) =>
      id := s.procs[p].phase.id;
      assert ProcOk(cfg, s.ledger, s.redis.lastId, p, s.procs[p].phase);
    case DeadLetter(i) =>
      id := s.ledger.deadFrom[i];
      assert LetterOk(cfg, s.ledger, s.redis.dlq[i], s.ledger.deadFrom[i], i);
    case Closed(i) => id := i;
  }

  lemma PlaceIsNewest(cfg: Config, s: State, t: Id, pl: Place)
    requires Inv(cfg, s) && IsTask(s, t) && pl in Places(s, t)
    ensures t in s.ledger.current && s.ledger.current[t] in s.ledger.book
    ensures pl == PlaceOf(s, s.ledger.current[t])
  {
    hide LocalsInv, RedisInv, HeldInv, ProcsInv, DeadInv, Places, PlaceOf;
    var id := PlaceHasCopy(cfg, s, t, pl);
    assert RecordOk(cfg, s.ledger, id);
  }

  lemma NewestHasPlace(cfg: Config, s: State, t: Id)
    requires Inv(cfg, s) && IsTask(s, t)
    ensures t in s.ledger.current && s.ledger.current[t] in s.ledger.book
    ensures PlaceOf(s, s.ledger.current[t]) in Places(s, t)
  {
    hide LocalsInv, ProcsInv;
    assert RecordOk(cfg, s.ledger, t);
    var newest := s.ledger.current[t];
    assert RecordOk(cfg, s.ledger, newest);
    assert StatusOk(s, newest);
  }

  /** Every task produced after the group exists is in exactly one place, that of its newest copy. */
  lemma Conservation(cfg: Config, s: State, t: Id)
    requires ValidConfig(cfg) && Reachable(cfg, s) && IsTask(s, t)
    ensures t in s.ledger.current && CopyOf(s, t, s.ledger.current[t])
    ensures Places(s, t) == {PlaceOf(s, s.ledger.current[t])}
  {
    hide Reachable, Places, PlaceOf;
    ReachableInv(cfg, s);
    assert RecordOk(cfg, s.ledger, t);
    hide Inv;
    NewestHasPlace(cfg, s, t);
    forall pl | pl in Places(s, t) ensures pl == PlaceOf(s, s.ledger.current[t]) {
      PlaceIsNewest(cfg, s, t, pl);
    }
  }

  // ---- One winner per id ----

  /** `Claim` came back with a nil error. */
  predicate ClaimedOk(ph: Phase, id: Id) {
    ph.Returned? && ph.id == id && !ph.failed && (ph.outcome.RqRequeued? || ph.outcome.RqDlq?)
  }

  /** At most one `Claim` of an id succeeds, and none once DoneStream's XACK has removed it. */
  lemma OneClaimWins(cfg: Config, s: State, id: Id, p: ProcId, q: ProcId)
    requires ValidConfig(cfg) && Reachable(cfg, s) && p in s.procs && q in s.procs
    requires ClaimedOk(s.procs[p].phase, id)
    ensures ClaimedOk(s.procs[q].phase, id) ==> p == q
    ensures id in s.ledger.book && !s.ledger.book[id].status.Finished?
  {
    hide Reachable;
    ReachableInv(cfg, s);
    hide RedisInv, HeldInv, LocalsInv, BookInv, DeadInv;
    assert ProcOk(cfg, s.ledger, s.redis.lastId, p, s.procs[p].phase);
    assert ProcOk(cfg, s.ledger, s.redis.lastId, q, s.procs[q].phase);
  }

  /** A recoverer holding a won id is its only holder, and nobody else is about to delete it. */
  lemma OneHolder(cfg: Config, s: State, p: ProcId, q: ProcId)
    requires ValidConfig(cfg) && Reachable(cfg, s) && p in s.procs && q in s.procs
    requires Holding(s.procs[p].phase) && (Holding(s.procs[q].phase) || s.procs[q].phase.Del?)
    requires s.procs[p].phase.id == s.procs[q].phase.id
    ensures p == q
  {
    hide Reachable;
    ReachableInv(cfg, s);
    hide RedisInv, HeldInv, LocalsInv, BookInv, DeadInv;
    assert ProcOk(cfg, s.ledger, s.redis.lastId, p, s.procs[p].phase);
    assert ProcOk(cfg, s.ledger, s.redis.lastId, q, s.procs[q].phase);
  }

  // ---- Order ----

  /** Pending entries still exist; locks being released and entries being deleted are out of the pending list. */
  lemma OrderKept(cfg: Config, s: State)
    requires ValidConfig(cfg) && Reachable(cfg, s)
    ensures s.redis.pel.Keys <= s.redis.entries.Keys
    ensures forall p ::
      p in s.procs && (s.procs[p].phase.DoneUnlock? || s.procs[p].phase.DoneDel? || s.procs[p].phase.Del?) ==>
      s.procs[p].phase.id !in s.redis.pel && s.ledger.base < s.procs[p].phase.id <= s.redis.cursor
    ensures forall p :: p in s.procs && s.procs[p].phase.Clear? && Issued(s.procs[p].phase.via) ==>
      s.procs[p].phase.id !in s.redis.pel
  {
    hide Reachable;
    ReachableInv(cfg, s);
    hide HeldInv, LocalsInv, BookInv, DeadInv;
    forall id | id in s.redis.pel ensures id in s.redis.entries {
      assert StatusOk(s, id);
    }
    forall p | p in s.procs && (s.procs[p].phase.DoneUnlock? || s.procs[p].phase.DoneDel? || s.procs[p].phase.Del?)
      ensures s.procs[p].phase.id !in s.redis.pel && s.ledger.base < s.procs[p].phase.id <= s.redis.cursor
    {
      assert ProcOk(cfg, s.ledger, s.redis.lastId, p, s.procs[p].phase);
      assert StatusOk(s, s.procs[p].phase.id);
    }
  }

  /** The lock info of a parseable entry can always be formed, so that error return of `reQueue` is never taken. */
  lemma LockInfoAlwaysFormed(cfg: Config, f: Fields, id: Id)
    ensures DataStreamName(cfg.parse, f).Ok? ==>
            CreateByParts(DataStreamName(cfg.parse, f).value, IdText(id)) ==
            Some(LBSInfo(DataStreamName(cfg.parse, f).value, IdText(id)))
  {
    hide Itoa;
    assert |IdText(id)| >= 1;
  }

  // ---- Retries ----

  /** How many re-queues are left, given the counter that the newest entry of a task carries. */
  function Budget(cfg: Config, count: int): (n: int)
    requires 0 <= cfg.maxRetries
    ensures 0 <= n <= cfg.maxRetries + 1
    ensures n > cfg.maxRetries <==> count == MAX_INT || count < 0
  {
    if count == MAX_INT || count < 0 then cfg.maxRetries + 1
    else if count < cfg.maxRetries then cfg.maxRetries - count
    else 0
  }

  /** An entry goes to the dead-letter stream instead of back into the stream exactly when nothing is left. */
  lemma BudgetDecides(cfg: Config, f: Fields)
    requires 0 <= cfg.maxRetries < MAX_INT
    ensures NextRetry(RetryCount(f)) > cfg.maxRetries <==> Budget(cfg, RetryCount(f)) == 0
  {
  }

  ghost function Copies(s: State, t: Id): set<Id> {
    set id | id in s.ledger.book && CopyOf(s, t, id)
  }

  /** Distinct values below a bound are at most that many. */
  lemma {:induction false} FewDepths(ids: set<Id>, depth: map<Id, nat>, bound: nat)
    requires ids <= depth.Keys
    requires forall i, j :: i in ids && j in ids && depth[i] == depth[j] ==> i == j
    requires forall i :: i in ids ==> depth[i] < bound
    ensures |ids| <= bound
    decreases bound
  {
    if ids != {} {
      if i :| i in ids && depth[i] == bound - 1 {
        FewDepths(ids - {i}, depth, bound - 1);
      } else {
        FewDepths(ids, depth, bound - 1);
      }
    }
  }

  /** The measure: it falls by one with every re-queue, from the budget the task began with. */
  lemma BudgetFalls(cfg: Config, s: State, id: Id)
    requires ValidConfig(cfg) && cfg.maxRetries < MAX_INT && Reachable(cfg, s) && id in s.ledger.book
    ensures s.ledger.book[id].origin in s.ledger.book
    ensures s.ledger.book[id].depth + Budget(cfg, RetryCount(s.ledger.book[id].fields)) ==
            Budget(cfg, RetryCount(s.ledger.book[s.ledger.book[id].origin].fields))
    ensures s.ledger.book[id].status.Superseded? ==>
            && s.ledger.book[id].status.newer in s.ledger.book
            && Budget(cfg, RetryCount(s.ledger.book[s.ledger.book[id].status.newer].fields)) ==
               Budget(cfg, RetryCount(s.ledger.book[id].fields)) - 1
  {
    hide Reachable, RetryCount;
    ReachableInv(cfg, s);
    hide HeldInv, LocalsInv, RedisInv, DeadInv, ProcsInv, DataStreamName;
    assert RecordOk(cfg, s.ledger, id);
    if s.ledger.book[id].status.Superseded? {
      assert RecordOk(cfg, s.ledger, s.ledger.book[id].status.newer);
    }
  }

  /** A task is re-queued at most as often as its first counter allows: the copies besides the original. */
  lemma RetryBound(cfg: Config, s: State, t: Id)
    requires ValidConfig(cfg) && cfg.maxRetries < MAX_INT && Reachable(cfg, s) && IsTask(s, t)
    ensures |Copies(s, t)| <= Budget(cfg, RetryCount(s.ledger.book[t].fields)) + 1
  {
    hide Reachable, RetryCount, Inv;
    var depth := map id | id in s.ledger.book :: s.ledger.book[id].depth;
    var bound := Budget(cfg, RetryCount(s.ledger.book[t].fields)) + 1;
    forall id | id in Copies(s, t) ensures depth[id] < bound {
      BudgetFalls(cfg, s, id);
    }
    CopiesApart(cfg, s, t, depth);
    FewDepths(Copies(s, t), depth, bound);
  }

  lemma CopiesApart(cfg: Config, s: State, t: Id, depth: map<Id, nat>)
    requires ValidConfig(cfg) && Reachable(cfg, s)
    requires depth == map id | id in s.ledger.book :: s.ledger.book[id].depth
    ensures forall i, j :: i in Copies(s, t) && j in Copies(s, t) && depth[i] == depth[j] ==> i == j
  {
    hide Reachable;
    ReachableInv(cfg, s);
    hide HeldInv, LocalsInv, RedisInv, DeadInv, ProcsInv, RecordOk;
    assert DepthUnique(s.ledger);
  }

  /**
   A task produced without a usable counter (no such field, no string, no integer, or negative): its n-th copy
   holds the decimal text of n, n never exceeds MaxRetries, and its dead letter, if its name parses, is made at
   the last allowed copy and holds the text of MaxRetries + 1.
   */
  lemma FreshTaskCounts(cfg: Config, s: State, t: Id, id: Id)
    requires ValidConfig(cfg) && cfg.maxRetries < MAX_INT && Reachable(cfg, s) && IsTask(s, t) && CopyOf(s, t, id)
    requires !Usable(s.ledger.book[t].fields)
    ensures s.ledger.book[id].depth == 0 <==> id == t
    ensures s.ledger.book[id].depth > 0 ==> Prints(s.ledger.book[id].fields, s.ledger.book[id].depth)
    ensures RetryCount(s.ledger.book[id].fields) == s.ledger.book[id].depth <= cfg.maxRetries
    ensures s.ledger.book[id].status.InDlq? && DataStreamName(cfg.parse, s.ledger.book[id].fields).Ok? ==>
            && s.ledger.book[id].depth == cfg.maxRetries
            && s.ledger.book[id].status.at < |s.redis.dlq|
            && IsLetter(s.redis.dlq[s.ledger.book[id].status.at], s.ledger.book[t].fields, cfg.maxRetries + 1,
                        REASON_MAX_RETRIES)
  {
    hide Reachable, RetryCount, DataStreamName, DeadFields, Prints, IsLetter, SamePayload;
    ReachableInv(cfg, s);
    hide HeldInv, LocalsInv, RedisInv, ProcsInv;
    RetryCountReads(s.ledger.book[t].fields, 0);
    assert RecordOk(cfg, s.ledger, id);
    if s.ledger.book[id].status.InDlq? {
      var i := s.ledger.book[id].status.at;
      assert LetterOk(cfg, s.ledger, s.redis.dlq[i], s.ledger.deadFrom[i], i);
      var f := s.ledger.book[id].fields;
      DeadIsLetter(f, DeadCount(cfg, f), DeadReason(cfg, f));
      LetterOfOriginal(s.redis.dlq[i], f, s.ledger.book[t].fields, DeadCount(cfg, f), DeadReason(cfg, f));
    }
  }

  // ---- Payload ----

  /** Whatever was re-queued or dead-lettered still is the original task: same fields, same data stream. */
  lemma PayloadSurvives(cfg: Config, s: State, id: Id)
    requires ValidConfig(cfg) && Reachable(cfg, s) && id in s.ledger.book
    ensures s.ledger.book[id].origin in s.ledger.book
    ensures var first := s.ledger.book[s.ledger.book[id].origin].fields;
            && SamePayload(s.ledger.book[id].fields, first)
            && DataStreamName(cfg.parse, s.ledger.book[id].fields) == DataStreamName(cfg.parse, first)
            && (id in s.redis.entries ==> s.redis.entries[id] == s.ledger.book[id].fields)
    ensures forall i :: 0 <= i < |s.redis.dlq| && i < |s.ledger.deadFrom| && s.ledger.deadFrom[i] == id ==>
            SameDeadPayload(s.redis.dlq[i], s.ledger.book[s.ledger.book[id].origin].fields)
  {
    hide Reachable, RetryCount, DataStreamName, DeadFields, SamePayload, SameDeadPayload;
    ReachableInv(cfg, s);
    hide HeldInv, LocalsInv, ProcsInv;
    assert RecordOk(cfg, s.ledger, id);
    var f, first := s.ledger.book[id].fields, s.ledger.book[s.ledger.book[id].origin].fields;
    SamePayloadSameName(cfg.parse, f, first);
    forall i | 0 <= i < |s.redis.dlq| && i < |s.ledger.deadFrom| && s.ledger.deadFrom[i] == id
      ensures SameDeadPayload(s.redis.dlq[i], first)
    {
      assert LetterOk(cfg, s.ledger, s.redis.dlq[i], s.ledger.deadFrom[i], i);
      DeadKeepsPayload(f, DeadCount(cfg, f), DeadReason(cfg, f));
      SamePayloadDead(s.redis.dlq[i], f, first);
    }
  }
}

/** Every step of the recovery protocol keeps the invariant, command by command. */
module Preservation {
  import opened Wrappers
  import opened Decimal
  import opened MutexKey
  import opened Entry
  import opened Redis
  import opened Protocol
  import opened Invariant

  // ---- Frames ----

  /** Records change their status and winner only, and superseded ones not at all. */
  ghost predicate SameTasks(l: Ledger, l': Ledger) {
    && l'.book.Keys == l.book.Keys && l'.current == l.current
    && forall id :: id in l.book ==>
         var r, r' := l.book[id], l'.book[id];
         && r'.fields == r.fields && r'.origin == r.origin && r'.depth == r.depth
         && (r.status == r'.status || (!r.status.Superseded? && !r'.status.Superseded?))
  }

  lemma BookFrame(cfg: Config, l: Ledger, l': Ledger)
    requires BookInv(cfg, l) && SameTasks(l, l')
    ensures BookInv(cfg, l')
  {
    forall id | id in l'.book ensures RecordOk(cfg, l', id) {
      assert RecordOk(cfg, l, id);
    }
    assert DepthUnique(l') by { assert DepthUnique(l); }
  }

  lemma DeadFrame(cfg: Config, s: State, s': State)
    requires DeadInv(cfg, s)
    requires s'.redis.dlq == s.redis.dlq && s'.ledger.deadFrom == s.ledger.deadFrom
    requires SameTasks(s.ledger, s'.ledger)
    requires forall id :: id in s.ledger.book ==>
      (var r, r' := s.ledger.book[id].status, s'.ledger.book[id].status; r == r' || (!r.InDlq? && !r'.InDlq?))
    ensures DeadInv(cfg, s')
  {
    hide DeadOk;
    forall i | 0 <= i < |s'.ledger.deadFrom|
      ensures LetterOk(cfg, s'.ledger, s'.redis.dlq[i], s'.ledger.deadFrom[i], i)
    {
      assert LetterOk(cfg, s.ledger, s.redis.dlq[i], s.ledger.deadFrom[i], i);
    }
  }

  lemma HoldsNothing(s: State, s1: State, p: ProcId, ph: Phase)
    requires HeldInv(s) && p in s.procs && !Holding(s.procs[p].phase)
    requires forall id :: id in s1.ledger.book && s1.ledger.book[id].status.Held? ==>
      || (id in s.ledger.book && s1.ledger.book[id] == s.ledger.book[id])
      || (s1.ledger.book[id].winner == Some(p) && Holding(ph) && ph.id == id)
    ensures HeldAfter(s, s1, p, ph)
  {
  }

  /** `p` held one id and now no record of it is held any more. */
  lemma LetsGo(s: State, s1: State, p: ProcId, ph: Phase)
    requires HeldInv(s) && p in s.procs && Holding(s.procs[p].phase)
    requires forall id :: id in s1.ledger.book && s1.ledger.book[id].status.Held? ==>
      id != s.procs[p].phase.id && id in s.ledger.book && s1.ledger.book[id] == s.ledger.book[id]
    ensures HeldAfter(s, s1, p, ph)
  {
  }

  /** Only the phase of `p` changes, and it holds nothing before or after. */
  lemma GotoKeeps(cfg: Config, s: State, p: ProcId, ph: Phase)
    requires Inv(cfg, s) && p in s.procs && !Holding(s.procs[p].phase)
    requires ProcOk(cfg, s.ledger, s.redis.lastId, p, ph)
    ensures Inv(cfg, Goto(s, p, ph))
  {
    hide BookInv, DeadInv, LocalsInv, RedisInv, ProcsInv, ProcOk;
    ActKeeps(cfg, s, s, p, ph);
  }

  /** As `GotoKeeps`, when lock keys or entries out of use change as well. */
  lemma SideKeeps(cfg: Config, s: State, s1: State, p: ProcId, ph: Phase)
    requires Inv(cfg, s) && p in s.procs && !Holding(s.procs[p].phase)
    requires s1.procs == s.procs && s1.ledger == s.ledger && s1.locals == s.locals
    requires s1.redis.lastId == s.redis.lastId && s1.redis.dlq == s.redis.dlq && RedisInv(s1)
    requires ProcOk(cfg, s.ledger, s.redis.lastId, p, ph)
    ensures Inv(cfg, Goto(s1, p, ph))
  {
    hide BookInv, RedisInv, ProcsInv, ProcOk;
    ActKeeps(cfg, s, s1, p, ph);
  }

  lemma FinishOk(cfg: Config, l: Ledger, last: Id, p: ProcId, id: Id, via: Via, outcome: Outcome, failed: bool)
    requires ViaOk(l, last, id, via) && (!failed ==> WonOutcome(l, id, p, outcome))
    ensures ProcOk(cfg, l, last, p, Finish(via, id, outcome, failed))
    ensures !Holding(Finish(via, id, outcome, failed))
  {
    if via.Scan? && via.rest != [] {
      assert via.rest[0] in via.rest;
    }
  }

  lemma ReturnKeeps(cfg: Config, s: State, p: ProcId, id: Id, via: Via, outcome: Outcome, failed: bool)
    requires Inv(cfg, s) && p in s.procs && !Holding(s.procs[p].phase)
    requires ViaOk(s.ledger, s.redis.lastId, id, via) && (!failed ==> WonOutcome(s.ledger, id, p, outcome))
    ensures Inv(cfg, Goto(s, p, Finish(via, id, outcome, failed)))
  {
    hide Inv, ProcOk, WonOutcome, ViaOk;
    FinishOk(cfg, s.ledger, s.redis.lastId, p, id, via, outcome, failed);
    GotoKeeps(cfg, s, p, Finish(via, id, outcome, failed));
  }

  // ---- Recovery ----

  lemma ScanKeeps(cfg: Config, s: State, p: ProcId)
    requires Inv(cfg, s) && p in s.procs && s.procs[p].phase.ScanIdle?
    ensures Inv(cfg, Goto(s, p, NextInPage(XPending(s.redis, cfg.minIdle, cfg.batchSize))))
  {
    var page := XPending(s.redis, cfg.minIdle, cfg.batchSize);
    hide BookInv, DeadInv, LocalsInv, HeldInv;
    forall x | x in page ensures Delivered(s.ledger, x) {
      assert x in IdleIds(s.redis, cfg.minIdle);
    }
    if page != [] {
      assert page[0] in page;
    }
    GotoKeeps(cfg, s, p, NextInPage(page));
  }

  lemma ReadKeeps(cfg: Config, s: State, p: ProcId, id: Id, via: Via)
    requires Inv(cfg, s) && p in s.procs && s.procs[p].phase == Read(id, via)
    ensures Inv(cfg, Goto(s, p, AfterRead(cfg, s.redis, id, via)))
  {
    hide BookInv, DeadInv, LocalsInv, HeldInv;
    if id !in s.redis.entries && id in s.ledger.book {
      assert StatusOk(s, id);
    }
    GotoKeeps(cfg, s, p, AfterRead(cfg, s.redis, id, via));
  }

  lemma CheckKeeps(cfg: Config, s: State, p: ProcId, id: Id, via: Via, f: Fields, name: string)
    requires Inv(cfg, s) && p in s.procs && s.procs[p].phase == Check(id, via, f, name)
    ensures Inv(cfg, Goto(s, p, AfterCheck(cfg, s.redis, id, via, f, name)))
  {
    hide BookInv, DeadInv, LocalsInv, HeldInv, RedisInv;
    if Exists(s.redis, LockKey(name, id)) {
      ReturnKeeps(cfg, s, p, id, via, RqSkippedAlive, false);
    } else {
      GotoKeeps(cfg, s, p, AfterCheck(cfg, s.redis, id, via, f, name));
    }
  }

  /** An XACK that took `id` out of the pending list: the id moves to `st`, nothing else does. */
  lemma AckKeeps(cfg: Config, s: State, p: ProcId, id: Id, st: Status, ph: Phase)
    requires Inv(cfg, s) && p in s.procs && !Holding(s.procs[p].phase) && id in s.redis.pel
    requires Gone(st) && !st.Superseded? && !st.InDlq?
    requires st.Held? ==> Holding(ph) && ph.id == id
    requires ProcOk(cfg, AckWon(s, p, id, st).ledger, s.redis.lastId, p, ph)
    ensures Inv(cfg, Goto(AckWon(s, p, id, st), p, ph))
  {
    hide BookInv, DeadInv, LocalsInv, ProcsInv, ProcOk, HeldInv, HeldAfter, RedisInv, Advance, SameTasks;
    var s1 := AckWon(s, p, id, st);
    AckTasks(s, p, id, st);
    AckHeld(s, p, id, st, ph);
    AckRedis(s, p, id, st);
    FrameLocals(cfg, s, s1, p);
    BookFrame(cfg, s.ledger, s1.ledger);
    AckDeadInv(cfg, s, p, id, st);
    ActKeeps(cfg, s, s1, p, ph);
  }

  lemma AckTasks(s: State, p: ProcId, id: Id, st: Status)
    requires RedisInv(s) && id in s.redis.pel && Gone(st) && !st.Superseded?
    ensures Advance(s, AckWon(s, p, id, st), p) && SameTasks(s.ledger, AckWon(s, p, id, st).ledger)
  {
  }

  lemma AckHeld(s: State, p: ProcId, id: Id, st: Status, ph: Phase)
    requires HeldInv(s) && p in s.procs && !Holding(s.procs[p].phase)
    requires st.Held? ==> Holding(ph) && ph.id == id
    ensures HeldAfter(s, AckWon(s, p, id, st), p, ph)
  {
  }

  lemma AckDeadInv(cfg: Config, s: State, p: ProcId, id: Id, st: Status)
    requires RedisInv(s) && DeadInv(cfg, s) && id in s.redis.pel && Gone(st) && !st.Superseded? && !st.InDlq?
    ensures DeadInv(cfg, AckWon(s, p, id, st))
  {
    hide DeadInv, Advance;
    AckTasks(s, p, id, st);
    DeadFrame(cfg, s, AckWon(s, p, id, st));
  }

  lemma AckRedis(s: State, p: ProcId, id: Id, st: Status)
    requires RedisInv(s) && id in s.redis.pel && Gone(st)
    ensures RedisInv(AckWon(s, p, id, st))
  {
    var s1 := AckWon(s, p, id, st);
    forall x | x in s1.ledger.book ensures StatusOk(s1, x) {
      assert StatusOk(s, x);
    }
  }

  lemma ClearKeeps(cfg: Config, s: State, p: ProcId, id: Id, via: Via)
    requires Inv(cfg, s) && p in s.procs && s.procs[p].phase == Clear(id, via)
    ensures Inv(cfg, StepClear(s, p, id, via))
  {
    hide BookInv, DeadInv, LocalsInv, HeldInv;
    if id in s.redis.pel {
      var l := AckWon(s, p, id, Discarded).ledger;
      FinishOk(cfg, l, s.redis.lastId, p, id, via, RqLostRace, false);
      AckKeeps(cfg, s, p, id, Discarded, Finish(via, id, RqLostRace, false));
    } else {
      ReturnKeeps(cfg, s, p, id, via, RqLostRace, false);
    }
  }

  lemma AckRequeueKeeps(cfg: Config, s: State, p: ProcId, id: Id, via: Via, f: Fields, count: int)
    requires Inv(cfg, s) && p in s.procs && s.procs[p].phase == AckRequeue(id, via, f, count)
    ensures Inv(cfg, StepAckRequeue(s, p, id, via, f, count))
  {
    hide BookInv, DeadInv, LocalsInv, HeldInv;
    if id in s.redis.pel {
      AckKeeps(cfg, s, p, id, Held, Add(id, via, f, count));
    } else {
      ReturnKeeps(cfg, s, p, id, via, RqLostRace, false);
    }
  }

  lemma AckDeadKeeps(cfg: Config, s: State, p: ProcId, id: Id, via: Via, f: Fields, count: int, reason: string)
    requires Inv(cfg, s) && p in s.procs && s.procs[p].phase == AckDead(id, via, f, count, reason)
    ensures Inv(cfg, StepAckDead(cfg, s, p, id, via, f, count, reason))
  {
    hide BookInv, DeadInv, LocalsInv, HeldInv;
    if id !in s.redis.pel {
      ReturnKeeps(cfg, s, p, id, via, RqLostRace, false);
    } else if cfg.dlqStream != "" {
      AckKeeps(cfg, s, p, id, Held, AddDead(id, via, f, count, reason));
    } else {
      AckKeeps(cfg, s, p, id, Dropped, Del(id, via, RqDlq));
    }
  }

  /** The failed XADD after a won XACK. */
  lemma LostKeeps(cfg: Config, s: State, p: ProcId, outcome: Outcome)
    requires Inv(cfg, s) && p in s.procs && Holding(s.procs[p].phase)
    ensures var ph := s.procs[p].phase;
            Inv(cfg, Goto(SetStatus(s, ph.id, Lost), p, Finish(ph.via, ph.id, outcome, true)))
  {
    hide BookInv, DeadInv, LocalsInv, Advance, RedisInv, HeldAfter, SameTasks, DataStreamName;
    var ph := s.procs[p].phase;
    var s1 := SetStatus(s, ph.id, Lost);
    SettleRedis(s, s1, p, ph.id, Lost);
    FrameLocals(cfg, s, s1, p);
    BookFrame(cfg, s.ledger, s1.ledger);
    DeadFrame(cfg, s, s1);
    LetsGo(s, s1, p, Finish(ph.via, ph.id, outcome, true));
    FrameProc(cfg, s, s1, p, p, Read(ph.id, ph.via));
    FinishOk(cfg, s1.ledger, s.redis.lastId, p, ph.id, ph.via, outcome, true);
    ActKeeps(cfg, s, s1, p, Finish(ph.via, ph.id, outcome, true));
  }

  /** A held id gets its final status. */
  lemma SettleRedis(s: State, s1: State, p: ProcId, id: Id, st: Status)
    requires RedisInv(s) && WonBy(s.ledger, id, p) && s.ledger.book[id].status.Held?
    requires Gone(st) && !st.Superseded?
    requires s1.redis == s.redis.(dlq := s1.redis.dlq)
    requires s1.ledger == s.ledger.(book := s.ledger.book[id := s.ledger.book[id].(status := st)],
                                    deadFrom := s1.ledger.deadFrom)
    ensures RedisInv(s1) && Advance(s, s1, p) && SameTasks(s.ledger, s1.ledger)
  {
    forall x | x in s1.ledger.book ensures StatusOk(s1, x) { assert StatusOk(s, x); }
  }

  lemma LetterAdded(cfg: Config, s: State, s1: State, id: Id)
    requires DeadInv(cfg, s) && id in s.ledger.book && s.ledger.book[id].status.Held?
    requires var f := s.ledger.book[id].fields;
             && DeadOk(cfg, f, DeadCount(cfg, f), DeadReason(cfg, f))
             && s1.redis.dlq == s.redis.dlq + [DeadFields(f, DeadCount(cfg, f), DeadReason(cfg, f))]
    requires s1.ledger.book == s.ledger.book[id := s.ledger.book[id].(status := InDlq(|s.redis.dlq|))]
    requires s1.ledger.deadFrom == s.ledger.deadFrom + [id]
    ensures DeadInv(cfg, s1)
  {
    hide DeadOk;
    forall i | 0 <= i < |s1.ledger.deadFrom|
      ensures LetterOk(cfg, s1.ledger, s1.redis.dlq[i], s1.ledger.deadFrom[i], i)
    {
      if i < |s.ledger.deadFrom| {
        assert LetterOk(cfg, s.ledger, s.redis.dlq[i], s.ledger.deadFrom[i], i);
      }
    }
  }

  lemma AddDeadKeeps(cfg: Config, s: State, p: ProcId, id: Id, via: Via, f: Fields, count: int, reason: string)
    requires Inv(cfg, s) && p in s.procs && s.procs[p].phase == AddDead(id, via, f, count, reason)
    ensures Inv(cfg, StepAddDead(s, p, id, via, f, count, reason))
  {
    hide BookInv, LocalsInv, DeadInv, HeldAfter, DataStreamName, DeadFields, RetryCount, Advance, RedisInv, SameTasks,
         ViaOk;
    var at := |s.redis.dlq|;
    var sA := SetStatus(s, id, InDlq(at));
    var s1 := sA.(redis := XAddDead(s.redis, DeadFields(f, count, reason)),
                  ledger := sA.ledger.(deadFrom := s.ledger.deadFrom + [id]));
    SettleRedis(s, s1, p, id, InDlq(at));
    FrameLocals(cfg, s, s1, p);
    BookFrame(cfg, s.ledger, s1.ledger);
    LetterAdded(cfg, s, s1, id);
    LetsGo(s, s1, p, Del(id, via, RqDlq));
    FrameProc(cfg, s, s1, p, p, Read(id, via));
    ActKeeps(cfg, s, s1, p, Del(id, via, RqDlq));
  }

  // ---- The re-queue XADD ----

  lemma CountRises(cfg: Config, f: Fields, first: int, depth: nat)
    requires RequeueOk(cfg, f, NextRetry(RetryCount(f))) && 0 <= cfg.maxRetries < MAX_INT
    requires RetryCount(f) == CountAt(first, depth) && (depth > 0 ==> RetryCount(f) <= cfg.maxRetries)
    ensures var count := RetryCount(RequeueFields(f, NextRetry(RetryCount(f))));
            && count == CountAt(first, depth + 1) && count <= cfg.maxRetries
            && (first < MAX_INT ==> Prints(RequeueFields(f, NextRetry(RetryCount(f))), count))
  {
    RequeueCount(f, RetryCount(f));
  }

  /** The copy of `id` that goes back into the stream. */
  function Copy(l: Ledger, id: Id): Fields
    requires id in l.book
  {
    RequeueFields(l.book[id].fields, NextRetry(RetryCount(l.book[id].fields)))
  }

  ghost predicate CanRequeue(cfg: Config, l: Ledger, id: Id, newId: Id) {
    && ValidConfig(cfg) && BookInv(cfg, l)
    && id in l.book && !l.book[id].status.Superseded? && (forall x :: x in l.book ==> x < newId)
    && RequeueOk(cfg, l.book[id].fields, NextRetry(RetryCount(l.book[id].fields)))
  }

  lemma CopyRecord(cfg: Config, l: Ledger, id: Id, newId: Id)
    requires CanRequeue(cfg, l, id, newId)
    ensures RecordOk(cfg, Requeued(l, id, newId, Copy(l, id)), newId)
    ensures RecordOk(cfg, Requeued(l, id, newId, Copy(l, id)), id)
  {
    hide RequeueOk, DataStreamName, RetryCount, RequeueFields, Prints;
    var r := l.book[id];
    assert RecordOk(cfg, l, id);
    assert RecordOk(cfg, l, r.origin);
    RequeueKeepsPayload(r.fields, NextRetry(RetryCount(r.fields)));
    if cfg.maxRetries < MAX_INT {
      CountRises(cfg, r.fields, RetryCount(l.book[r.origin].fields), r.depth);
    }
  }

  lemma OtherRecord(cfg: Config, l: Ledger, id: Id, newId: Id, x: Id)
    requires CanRequeue(cfg, l, id, newId) && x in l.book && x != id
    ensures RecordOk(cfg, Requeued(l, id, newId, Copy(l, id)), x)
  {
    hide RequeueOk, DataStreamName, RetryCount, RequeueFields, CountAt, Prints;
    assert RecordOk(cfg, l, id);
    assert RecordOk(cfg, l, x);
  }

  lemma CopyDepth(cfg: Config, l: Ledger, id: Id, newId: Id)
    requires CanRequeue(cfg, l, id, newId)
    ensures DepthUnique(Requeued(l, id, newId, Copy(l, id)))
  {
    hide RequeueOk, DataStreamName, RetryCount, RequeueFields, CountAt, Prints;
    var l' := Requeued(l, id, newId, Copy(l, id));
    forall i, j | i in l'.book && j in l'.book && l'.book[i].origin == l'.book[j].origin
                  && l'.book[i].depth == l'.book[j].depth
      ensures i == j
    {
      assert RecordOk(cfg, l, id);
      assert i in l.book ==> RecordOk(cfg, l, i);
      assert j in l.book ==> RecordOk(cfg, l, j);
    }
  }

  lemma AddBook(cfg: Config, l: Ledger, id: Id, newId: Id)
    requires CanRequeue(cfg, l, id, newId)
    ensures BookInv(cfg, Requeued(l, id, newId, Copy(l, id)))
  {
    hide RecordOk, DepthUnique;
    var l' := Requeued(l, id, newId, Copy(l, id));
    CopyRecord(cfg, l, id, newId);
    CopyDepth(cfg, l, id, newId);
    forall x | x in l'.book ensures RecordOk(cfg, l', x) {
      if x != id && x != newId {
        OtherRecord(cfg, l, id, newId, x);
      }
    }
  }

  lemma AddAdvance(s: State, s1: State, p: ProcId, id: Id, newId: Id)
    requires s.redis.lastId < newId && newId !in s.ledger.book
    requires WonBy(s.ledger, id, p) && s.ledger.book[id].status.Held?
    requires s1.redis.lastId == newId && s1.ledger == Requeued(s.ledger, id, newId, Copy(s.ledger, id))
    ensures Advance(s, s1, p)
  {
    hide RequeueFields, RetryCount;
  }

  lemma AddRedis(s: State, s1: State, p: ProcId, id: Id, newId: Id)
    requires RedisInv(s) && s.redis.lastId < newId && WonBy(s.ledger, id, p) && s.ledger.book[id].status.Held?
    requires s1.redis == XAdd(s.redis, newId, Copy(s.ledger, id))
    requires s1.ledger == Requeued(s.ledger, id, newId, Copy(s.ledger, id))
    ensures RedisInv(s1)
  {
    hide RequeueFields, RetryCount;
    forall x | x in s1.ledger.book ensures StatusOk(s1, x) {
      if x in s.ledger.book { assert StatusOk(s, x); }
    }
  }

  lemma AddKeeps(cfg: Config, s: State, p: ProcId, id: Id, via: Via, f: Fields, count: int, newId: Id)
    requires ValidConfig(cfg) && Inv(cfg, s) && p in s.procs && s.procs[p].phase == Add(id, via, f, count)
    requires s.redis.lastId < newId
    ensures Inv(cfg, StepAdd(s, p, id, via, f, count, newId))
  {
    hide BookInv, LocalsInv, DeadInv, RequeueFields, RetryCount, DataStreamName, HeldAfter, Advance, RedisInv,
         HeldInv, ViaOk;
    var s1 := s.(redis := XAdd(s.redis, newId, Copy(s.ledger, id)),
                 ledger := Requeued(s.ledger, id, newId, Copy(s.ledger, id)));
    NewIdIsNew(s, newId);
    AddRedis(s, s1, p, id, newId);
    AddAdvance(s, s1, p, id, newId);
    FrameProc(cfg, s, s1, p, p, Read(id, via));
    FrameLocals(cfg, s, s1, p);
    AddBook(cfg, s.ledger, id, newId);
    AddDeadInv(cfg, s, s1, id, newId);
    LetsGo(s, s1, p, Del(id, via, RqRequeued));
    ActKeeps(cfg, s, s1, p, Del(id, via, RqRequeued));
  }

  lemma NewIdIsNew(s: State, newId: Id)
    requires RedisInv(s) && s.redis.lastId < newId
    ensures forall x :: x in s.ledger.book ==> x < newId
  {
  }

  lemma AddDeadInv(cfg: Config, s: State, s1: State, id: Id, newId: Id)
    requires DeadInv(cfg, s) && id in s.ledger.book && s.ledger.book[id].status.Held? && newId !in s.ledger.book
    requires s1.redis.dlq == s.redis.dlq && s1.ledger == Requeued(s.ledger, id, newId, Copy(s.ledger, id))
    ensures DeadInv(cfg, s1)
  {
    hide DeadOk;
    forall i | 0 <= i < |s1.ledger.deadFrom|
      ensures LetterOk(cfg, s1.ledger, s1.redis.dlq[i], s1.ledger.deadFrom[i], i)
    {
      assert LetterOk(cfg, s.ledger, s.redis.dlq[i], s.ledger.deadFrom[i], i);
    }
  }

  // ---- XDEL ----

  /** Deleting an id that can no longer be pending loses nothing. */
  lemma DelKeeps(cfg: Config, s: State, p: ProcId, id: Id, ph: Phase)
    requires Inv(cfg, s) && p in s.procs && !Holding(s.procs[p].phase)
    requires NeverPending(s.ledger, s.redis.lastId, id)
    requires ProcOk(cfg, s.ledger, s.redis.lastId, p, ph)
    ensures Inv(cfg, StepDel(s, p, id, ph))
  {
    hide BookInv, DeadInv, LocalsInv, HeldInv, ProcsInv, ProcOk;
    var s1 := s.(redis := XDel(s.redis, id));
    assert RedisInv(s1) by {
      forall x | x in s1.ledger.book ensures StatusOk(s1, x) { assert StatusOk(s, x); }
    }
    SideKeeps(cfg, s, s1, p, ph);
  }

  // ---- Reader, extender, DoneStream ----

  lemma UndeliveredWait(s: State, upTo: Id)
    requires RedisInv(s)
    ensures forall id :: id in Undelivered(s.redis, upTo) ==> id in s.ledger.book && s.ledger.book[id].status.Waiting?
  {
    forall id | id in Undelivered(s.redis, upTo) ensures id in s.ledger.book && s.ledger.book[id].status.Waiting? {
      assert StatusOk(s, id);
    }
  }

  lemma DeliverTasks(s: State, s1: State, p: ProcId, ids: set<Id>)
    requires forall id :: id in ids ==> id in s.ledger.book && s.ledger.book[id].status.Waiting?
    requires s1.ledger == Deliver(s.ledger, ids) && s.redis.lastId == s1.redis.lastId
    ensures Advance(s, s1, p) && SameTasks(s.ledger, s1.ledger) && s1.ledger.deadFrom == s.ledger.deadFrom
    ensures forall id :: id in ids ==> Delivered(s1.ledger, id)
    ensures forall id :: id in s.ledger.book ==>
      || s.ledger.book[id] == s1.ledger.book[id]
      || (s.ledger.book[id].status.Waiting? && s1.ledger.book[id].status.Pending?)
  {
  }

  lemma DeliverRedis(s: State, s1: State, c: ClientId, upTo: Id)
    requires RedisInv(s) && s.redis.cursor < upTo && upTo in s.redis.entries
    requires s1.redis == XReadGroup(s.redis, c, upTo)
    requires s1.ledger == Deliver(s.ledger, Undelivered(s.redis, upTo))
    ensures RedisInv(s1)
  {
    UndeliveredWait(s, upTo);
    forall x | x in s1.ledger.book ensures StatusOk(s1, x) {
      assert StatusOk(s, x);
    }
  }

  lemma ReadGroupKeepsRest(r: Server, c: ClientId, upTo: Id)
    requires r.cursor <= upTo
    ensures XReadGroup(r, c, upTo).lastId == r.lastId && XReadGroup(r, c, upTo).dlq == r.dlq
  {
  }

  lemma ReadGroupKeeps(cfg: Config, s: State, p: ProcId, upTo: Id)
    requires Inv(cfg, s) && p in s.procs && s.procs[p].phase.ReaderIdle?
    requires s.redis.cursor < upTo && upTo in s.redis.entries
    ensures Inv(cfg, StepReadGroup(s, p, upTo))
  {
    hide BookInv, DeadInv, LocalsInv, ProcsInv, HeldInv, HeldAfter, Advance, SameTasks, RedisInv, Deliver, BatchOk,
         Undelivered, XReadGroup, Batch, Delivered;
    var ph := Locking(Batch(s.redis, upTo));
    var s1 := s.(redis := XReadGroup(s.redis, s.procs[p].client, upTo),
                 ledger := Deliver(s.ledger, Undelivered(s.redis, upTo)));
    UndeliveredWait(s, upTo);
    ReadGroupKeepsRest(s.redis, s.procs[p].client, upTo);
    DeliverTasks(s, s1, p, Undelivered(s.redis, upTo));
    DeliverRedis(s, s1, s.procs[p].client, upTo);
    FrameLocals(cfg, s, s1, p);
    BookFrame(cfg, s.ledger, s1.ledger);
    DeliverDead(cfg, s, s1);
    HoldsNothing(s, s1, p, ph);
    BatchKnown(s, s1, p, upTo);
    ActKeeps(cfg, s, s1, p, ph);
  }

  lemma DeliverDead(cfg: Config, s: State, s1: State)
    requires DeadInv(cfg, s) && s1.redis.dlq == s.redis.dlq
    requires s1.ledger.deadFrom == s.ledger.deadFrom && SameTasks(s.ledger, s1.ledger)
    requires forall id :: id in s.ledger.book ==>
      || s.ledger.book[id] == s1.ledger.book[id]
      || (s.ledger.book[id].status.Waiting? && s1.ledger.book[id].status.Pending?)
    ensures DeadInv(cfg, s1)
  {
    hide DeadInv, SameTasks;
    DeadFrame(cfg, s, s1);
  }

  lemma BatchKnown(s: State, s1: State, p: ProcId, upTo: Id)
    requires RedisInv(s) && Advance(s, s1, p)
    requires forall id :: id in Undelivered(s.redis, upTo) ==> Delivered(s1.ledger, id)
    ensures BatchOk(s1.ledger, Batch(s.redis, upTo))
  {
  }

  /** Lock keys are no part of the invariant. */
  lemma LockKeeps(cfg: Config, s: State, r: Server, p: ProcId, ph: Phase)
    requires Inv(cfg, s) && p in s.procs && !Holding(s.procs[p].phase)
    requires r == s.redis.(locks := r.locks)
    requires ProcOk(cfg, s.ledger, s.redis.lastId, p, ph)
    ensures Inv(cfg, Goto(s.(redis := r), p, ph))
  {
    hide BookInv, DeadInv, LocalsInv, ProcsInv, HeldInv, ProcOk;
    var s1 := s.(redis := r);
    assert RedisInv(s1) by {
      forall x | x in s1.ledger.book ensures StatusOk(s1, x) { assert StatusOk(s, x); }
    }
    SideKeeps(cfg, s, s1, p, ph);
  }

  lemma StepLockKeeps(cfg: Config, s: State, p: ProcId, batch: seq<Message>)
    requires Inv(cfg, s) && p in s.procs && s.procs[p].phase == Locking(batch)
    ensures Inv(cfg, StepLock(cfg, s, p, batch))
  {
    hide BookInv, DeadInv, LocalsInv, HeldInv, RedisInv;
    if batch == [] {
      GotoKeeps(cfg, s, p, ReaderIdle);
    } else {
      match DataStreamName(cfg.parse, batch[0].fields)
      case Err(_) => GotoKeeps(cfg, s, p, Ended);
      case Ok(name) =>
        var key := LockKey(name, batch[0].id);
        if Exists(s.redis, key) {
          GotoKeeps(cfg, s, p, Ended);
        } else {
          LockKeeps(cfg, s, SetNX(s.redis, key, s.procs[p].client, cfg.hbInterval), p, Register(name, batch));
        }
    }
  }

  /** Local maps may change as long as what they name is delivered work of that name. */
  lemma LocalKeeps(cfg: Config, s: State, s1: State)
    requires Inv(cfg, s) && s1 == s.(locals := s1.locals) && LocalsInv(cfg, s1)
    ensures Inv(cfg, s1)
  {
    hide BookInv, DeadInv, ProcOk;
    RedisFrame(s, s1);
    assert DeadInv(cfg, s1) by { DeadSame(cfg, s, s1); }
  }

  lemma DeadSame(cfg: Config, s: State, s1: State)
    requires DeadInv(cfg, s) && s1.redis.dlq == s.redis.dlq && s1.ledger == s.ledger
    ensures DeadInv(cfg, s1)
  {
  }

  lemma PopKeeps(cfg: Config, s: State, c: ClientId, name: string)
    requires Inv(cfg, s)
    ensures Inv(cfg, Pop(s, c, name))
  {
    hide BookInv, DeadInv, ProcsInv, HeldInv, RedisInv, Named;
    LocalKeeps(cfg, s, Pop(s, c, name));
  }

  lemma PopEndKeeps(cfg: Config, s: State, p: ProcId, c: ClientId, name: string)
    requires Inv(cfg, s) && p in s.procs && !Holding(s.procs[p].phase)
    ensures Inv(cfg, Goto(Pop(s, c, name), p, Ended))
  {
    hide Inv;
    PopKeeps(cfg, s, c, name);
    GotoKeeps(cfg, Pop(s, c, name), p, Ended);
  }

  lemma SpawnKeeps(cfg: Config, s: State, p: ProcId, c: ClientId, ph: Phase)
    requires Inv(cfg, s) && p !in s.procs && !Holding(ph)
    requires ProcOk(cfg, s.ledger, s.redis.lastId, p, ph)
    ensures Inv(cfg, Spawn(s, p, c, ph))
  {
    hide BookInv, DeadInv, ProcOk;
    RedisFrame(s, Spawn(s, p, c, ph));
    DeadSame(cfg, s, Spawn(s, p, c, ph));
  }

  lemma RegisterKeeps(cfg: Config, s: State, p: ProcId, name: string, batch: seq<Message>, child: ProcId)
    requires Inv(cfg, s) && p in s.procs && s.procs[p].phase == Register(name, batch) && child !in s.procs
    requires batch != []
    ensures Inv(cfg, StepRegister(s, p, name, batch, child))
  {
    hide BookInv, DeadInv, HeldInv, RedisInv, DataStreamName;
    var c := s.procs[p].client;
    var s1 := s.(locals := s.locals[c := LocalsOf(s, c)[name := batch[0].id]]);
    assert Named(cfg, s.ledger, name, batch[0].id);
    LocalKeeps(cfg, s, s1);
    GotoKeeps(cfg, s1, p, Locking(batch[1..]));
    var s2 := Goto(s1, p, Locking(batch[1..]));
    SpawnKeeps(cfg, s2, child, c, ExtCheck(name, batch[0].id));
  }

  lemma DoneAckKeeps(cfg: Config, s: State, p: ProcId, name: string, id: Id)
    requires Inv(cfg, s) && p in s.procs && s.procs[p].phase == DoneAck(name, id)
    ensures Inv(cfg, StepDoneAck(s, p, name, id))
  {
    hide BookInv, DeadInv, LocalsInv, HeldInv, DataStreamName;
    if id in s.redis.pel {
      AckKeeps(cfg, s, p, id, Finished, DoneDel(name, id));
    } else {
      assert StatusOk(s, id);
      GotoKeeps(cfg, s, p, DoneDel(name, id));
    }
  }

  // ---- Events from outside ----

  lemma TickKeeps(cfg: Config, s: State, d: nat)
    requires Inv(cfg, s)
    ensures Inv(cfg, s.(redis := s.redis.(now := s.redis.now + d)))
  {
    hide BookInv, DeadInv, ProcOk, LocalsInv;
    var s1 := s.(redis := s.redis.(now := s.redis.now + d));
    forall x | x in s1.ledger.book ensures StatusOk(s1, x) { assert StatusOk(s, x); }
    DeadSame(cfg, s, s1);
    FrameLocals(cfg, s, s1, 0);
  }

  lemma ProduceKeeps(cfg: Config, s: State, newId: Id, f: Fields)
    requires Inv(cfg, s) && s.redis.lastId < newId
    ensures Inv(cfg, Apply(cfg, s, Produce(newId, f)))
  {
    hide BookInv, DeadInv, LocalsInv, ProcOk, RedisInv, Advance;
    var s1 := Apply(cfg, s, Produce(newId, f));
    NewIdIsNew(s, newId);
    ProduceRedis(s, s1, newId, f);
    ProduceBook(cfg, s.ledger, s1.ledger, newId, f);
    ProduceDead(cfg, s, s1, newId, f);
    ProduceAdvance(s, s1, 0, newId, f);
    FrameLocals(cfg, s, s1, 0);
    forall q | q in s1.procs ensures ProcOk(cfg, s1.ledger, s1.redis.lastId, q, s1.procs[q].phase) {
      ProduceAdvance(s, s1, q + 1, newId, f);
      FrameProc(cfg, s, s1, q + 1, q, s.procs[q].phase);
    }
  }

  lemma ProduceAdvance(s: State, s1: State, p: ProcId, newId: Id, f: Fields)
    requires s.redis.lastId < newId == s1.redis.lastId && newId !in s.ledger.book
    requires s1.ledger.book == s.ledger.book[newId := Record(f, newId, 0, Waiting, None)]
    ensures Advance(s, s1, p)
  {
  }

  lemma ProduceRedis(s: State, s1: State, newId: Id, f: Fields)
    requires RedisInv(s) && s.redis.lastId < newId && newId !in s.ledger.book
    requires s1.redis == XAdd(s.redis, newId, f)
    requires s1.ledger.book == s.ledger.book[newId := Record(f, newId, 0, Waiting, None)]
    requires s1.ledger.base == s.ledger.base
    ensures RedisInv(s1)
  {
    forall x | x in s1.ledger.book ensures StatusOk(s1, x) {
      if x in s.ledger.book { assert StatusOk(s, x); }
    }
  }

  lemma ProduceBook(cfg: Config, l: Ledger, l': Ledger, newId: Id, f: Fields)
    requires BookInv(cfg, l) && (forall x :: x in l.book ==> x < newId)
    requires l'.book == l.book[newId := Record(f, newId, 0, Waiting, None)] && l'.current == l.current[newId := newId]
    ensures BookInv(cfg, l')
  {
    hide DataStreamName, RetryCount, RequeueFields;
    forall x | x in l'.book ensures RecordOk(cfg, l', x) {
      if x in l.book { assert RecordOk(cfg, l, x); }
    }
    forall i, j | i in l'.book && j in l'.book && l'.book[i].origin == l'.book[j].origin
                  && l'.book[i].depth == l'.book[j].depth
      ensures i == j
    {
      assert i in l.book ==> RecordOk(cfg, l, i);
      assert j in l.book ==> RecordOk(cfg, l, j);
    }
  }

  lemma ProduceDead(cfg: Config, s: State, s1: State, newId: Id, f: Fields)
    requires DeadInv(cfg, s) && newId !in s.ledger.book
    requires s1.redis.dlq == s.redis.dlq && s1.ledger.deadFrom == s.ledger.deadFrom
    requires s1.ledger.book == s.ledger.book[newId := Record(f, newId, 0, Waiting, None)]
    ensures DeadInv(cfg, s1)
  {
    hide DeadOk;
    forall i | 0 <= i < |s1.ledger.deadFrom|
      ensures LetterOk(cfg, s1.ledger, s1.redis.dlq[i], s1.ledger.deadFrom[i], i)
    {
      assert LetterOk(cfg, s.ledger, s.redis.dlq[i], s.ledger.deadFrom[i], i);
    }
  }

  lemma StartDoneKeeps(cfg: Config, s: State, p: ProcId, c: ClientId, name: string)
    requires Inv(cfg, s) && p !in s.procs && name in LocalsOf(s, c)
    ensures Inv(cfg, Apply(cfg, s, StartDone(p, c, name)))
  {
    hide BookInv, DeadInv, HeldInv, RedisInv, Named, ProcsInv;
    PopKeeps(cfg, s, c, name);
    SpawnKeeps(cfg, Pop(s, c, name), p, c, DoneAck(name, LocalsOf(s, c)[name]));
  }

  // ---- All together ----

  lemma GoRecoverKeeps(cfg: Config, s: State, p: ProcId, newId: Id)
    requires ValidConfig(cfg) && Inv(cfg, s) && p in s.procs && (s.procs[p].phase.Add? ==> s.redis.lastId < newId)
    ensures Inv(cfg, GoRecover(cfg, s, p, newId))
  {
    hide Inv;
    match s.procs[p].phase
    case ScanIdle => ScanKeeps(cfg, s, p);
    case Read(id, via) => ReadKeeps(cfg, s, p, id, via);
    case Clear(id, via) => ClearKeeps(cfg, s, p, id, via);
    case Check(id, via, f, name) => CheckKeeps(cfg, s, p, id, via, f, name);
    case AckRequeue(id, via, f, count) => AckRequeueKeeps(cfg, s, p, id, via, f, count);
    case Add(id, via, f, count) => AddKeeps(cfg, s, p, id, via, f, count, newId);
    case AckDead(id, via, f, count, reason) => AckDeadKeeps(cfg, s, p, id, via, f, count, reason);
    case AddDead(id, via, f, count, reason) => AddDeadKeeps(cfg, s, p, id, via, f, count, reason);
    case Del(id, via, outcome) => DelStepKeeps(cfg, s, p, id, via, outcome);
    case _ =>
  }

  lemma GoOwnKeeps(cfg: Config, s: State, p: ProcId, newId: Id, child: ProcId)
    requires Inv(cfg, s) && p in s.procs && CanGo(s, p, newId, child)
    ensures Inv(cfg, GoOwn(cfg, s, p, newId, child))
  {
    hide BookInv, DeadInv, HeldInv, RedisInv, LocalsInv;
    match s.procs[p].phase
    case ReaderIdle => ReadGroupKeeps(cfg, s, p, newId);
    case Locking(batch) => StepLockKeeps(cfg, s, p, batch);
    case Register(name, batch) => RegisterKeeps(cfg, s, p, name, batch, child);
    case ExtCheck(name, id) =>
      GotoKeeps(cfg, s, p, if name !in LocalsOf(s, s.procs[p].client) then ExtExit(name) else ExtExtend(name, id));
    case ExtExtend(name, id) => ExtendKeeps(cfg, s, p, name, id);
    case ExtExit(name) => PopEndKeeps(cfg, s, p, s.procs[p].client, name);
    case DoneAck(name, id) => DoneAckKeeps(cfg, s, p, name, id);
    case DoneDel(name, id) => DoneDelKeeps(cfg, s, p, name, id);
    case DoneUnlock(name, id) => LockKeeps(cfg, s, Unlock(s.redis, LockKey(name, id), s.procs[p].client), p, Ended);
    case _ =>
  }

  lemma DelStepKeeps(cfg: Config, s: State, p: ProcId, id: Id, via: Via, outcome: Outcome)
    requires Inv(cfg, s) && p in s.procs && s.procs[p].phase == Del(id, via, outcome)
    ensures Inv(cfg, StepDel(s, p, id, Finish(via, id, outcome, false)))
  {
    hide BookInv, DeadInv, HeldInv, LocalsInv;
    FinishOk(cfg, s.ledger, s.redis.lastId, p, id, via, outcome, false);
    DelKeeps(cfg, s, p, id, Finish(via, id, outcome, false));
  }

  lemma DoneDelKeeps(cfg: Config, s: State, p: ProcId, name: string, id: Id)
    requires Inv(cfg, s) && p in s.procs && s.procs[p].phase == DoneDel(name, id)
    ensures Inv(cfg, StepDel(s, p, id, DoneUnlock(name, id)))
  {
    hide BookInv, DeadInv, HeldInv, LocalsInv;
    DelKeeps(cfg, s, p, id, DoneUnlock(name, id));
  }

  lemma ExtendKeeps(cfg: Config, s: State, p: ProcId, name: string, id: Id)
    requires Inv(cfg, s) && p in s.procs && s.procs[p].phase == ExtExtend(name, id)
    ensures Inv(cfg, StepExtend(cfg, s, p, name, id))
  {
    hide BookInv, DeadInv, HeldInv, LocalsInv, RedisInv;
    var c, key := s.procs[p].client, LockKey(name, id);
    if CanExtend(s.redis, key, c) {
      LockKeeps(cfg, s, Extend(s.redis, key, c, cfg.hbInterval), p, ExtCheck(name, id));
    } else {
      GotoKeeps(cfg, s, p, ExtExit(name));
    }
  }

  lemma FailKeeps(cfg: Config, s: State, p: ProcId)
    requires Inv(cfg, s) && p in s.procs
    ensures Inv(cfg, Fail1(s, p))
  {
    hide BookInv, DeadInv, HeldInv, LocalsInv, RedisInv;
    match s.procs[p].phase
    case Read(id, via) => ReturnKeeps(cfg, s, p, id, via, RqError, true);
    case Clear(id, via) => ReturnKeeps(cfg, s, p, id, via, RqLostRace, false);
    case Check(id, via, _, _) => ReturnKeeps(cfg, s, p, id, via, RqError, true);
    case AckRequeue(id, via, _, _) => ReturnKeeps(cfg, s, p, id, via, RqError, true);
    case Add(_, _, _, _) => LostKeeps(cfg, s, p, RqError);
    case AckDead(id, via, _, _, _) => ReturnKeeps(cfg, s, p, id, via, RqError, true);
    case AddDead(_, _, _, _, _) => LostKeeps(cfg, s, p, RqDlq);
    case Del(id, via, outcome) => ReturnKeeps(cfg, s, p, id, via, outcome, false);
    case ExtExtend(name, _) => GotoKeeps(cfg, s, p, ExtExit(name));
    case Locking(_) => GotoKeeps(cfg, s, p, Ended);
    case DoneAck(_, _) => GotoKeeps(cfg, s, p, Ended);
    case DoneDel(_, _) => GotoKeeps(cfg, s, p, Ended);
    case DoneUnlock(_, _) => GotoKeeps(cfg, s, p, Ended);
    case _ =>
  }

  lemma CancelKeeps(cfg: Config, s: State, p: ProcId)
    requires Inv(cfg, s) && p in s.procs
    ensures Inv(cfg, Cancel1(s, p))
  {
    hide BookInv, DeadInv, HeldInv, LocalsInv, RedisInv, ProcsInv;
    match s.procs[p].phase
    case ReaderIdle => GotoKeeps(cfg, s, p, Ended);
    case ExtCheck(name, _) => GotoKeeps(cfg, s, p, ExtExit(name));
    case _ =>
  }

  /** One step, whoever takes it. */
  lemma StepKeeps(cfg: Config, s: State, e: Event, s': State)
    requires ValidConfig(cfg) && Inv(cfg, s) && Step(cfg, s, e, s')
    ensures Inv(cfg, s')
  {
    hide Inv, GoRecover, GoOwn, Fail1, Cancel1;
    match e
    case Tick(d) => TickKeeps(cfg, s, d);
    case Produce(newId, f) => ProduceKeeps(cfg, s, newId, f);
    case StartScan(p, c) => SpawnKeeps(cfg, s, p, c, ScanIdle);
    case StartClaim(p, c, id) => SpawnKeeps(cfg, s, p, c, Read(id, Claim(id <= s.redis.lastId)));
    case StartReader(p, c) => SpawnKeeps(cfg, s, p, c, ReaderIdle);
    case StartDone(p, c, name) => StartDoneKeeps(cfg, s, p, c, name);
    case Restart(c) => RestartKeeps(cfg, s, c);
    case Act(p, Go(newId, child)) =>
      if s.procs[p].phase.ScanIdle? || Recovering(s.procs[p].phase) {
        GoRecoverKeeps(cfg, s, p, newId);
      } else {
        GoOwnKeeps(cfg, s, p, newId, child);
      }
    case Act(p, Fail) => FailKeeps(cfg, s, p);
    case Act(p, Cancel) => CancelKeeps(cfg, s, p);
  }

  lemma RestartKeeps(cfg: Config, s: State, c: ClientId)
    requires Inv(cfg, s)
    ensures Inv(cfg, s.(locals := s.locals[c := map[]]))
  {
    hide BookInv, DeadInv, HeldInv, RedisInv, ProcsInv, Named;
    LocalKeeps(cfg, s, s.(locals := s.locals[c := map[]]));
  }

  /** The invariant holds at every point of every run. */
  lemma {:induction false} RunInv(cfg: Config, tr: seq<State>, es: seq<Event>, k: nat)
    requires ValidConfig(cfg) && Run(cfg, tr, es) && k <= |es|
    ensures Inv(cfg, tr[k])
  {
    hide Inv, Init;
    if k == 0 {
      InitInv(cfg, tr[0]);
    } else {
      RunInv(cfg, tr, es, k - 1);
      assert Step(cfg, tr[k - 1], es[k - 1], tr[k - 1 + 1]);
      StepKeeps(cfg, tr[k - 1], es[k - 1], tr[k]);
    }
  }
}

/**
 Single steps of the recovery protocol: what a command does to the server and
 to its own process, what it leaves alone, and how a process came to the phase
 it is in.
 */
module Witness {
  import opened MutexKey
  import opened Entry
  import opened Redis
  import opened Protocol

  // ---- What a recovery command does to the server and to its own process ----

  /** The effect of the next command of a recovery on the server. */
  function CommandEffect(r: Server, ph: Phase, newId: Id): Server
    requires ph.Add? ==> r.lastId < newId
  {
    match ph
    case Clear(id, _) => XAck(r, id)
    case AckRequeue(id, _, _, _) => XAck(r, id)
    case AckDead(id, _, _, _, _) => XAck(r, id)
    case Add(_, _, f, count) => XAdd(r, newId, RequeueFields(f, count))
    case AddDead(_, _, f, count, reason) => XAddDead(r, DeadFields(f, count, reason))
    case Del(id, _, _) => XDel(r, id)
    case _ => r
  }

  /** The phase after that command. */
  function NextPhase(cfg: Config, r: Server, ph: Phase): Phase {
    match ph
    case ScanIdle => NextInPage(XPending(r, cfg.minIdle, cfg.batchSize))
    case Read(id, via) => AfterRead(cfg, r, id, via)
    case Clear(id, via) => Finish(via, id, RqLostRace, false)
    case Check(id, via, f, name) => AfterCheck(cfg, r, id, via, f, name)
    case AckRequeue(id, via, f, count) =>
      if id in r.pel then Add(id, via, f, count) else Finish(via, id, RqLostRace, false)
    case Add(id, via, _, _) => Del(id, via, RqRequeued)
    case AckDead(id, via, f, count, reason) =>
      if id !in r.pel then Finish(via, id, RqLostRace, false)
      else if cfg.dlqStream != "" then AddDead(id, via, f, count, reason)
      else Del(id, via, RqDlq)
    case AddDead(id, via, _, _, _) => Del(id, via, RqDlq)
    case Del(id, via, outcome) => Finish(via, id, outcome, false)
    case _ => ph
  }

  /** An XACK of an id that is not pending does nothing. */
  lemma AckAbsent(r: Server, id: Id)
    ensures id !in r.pel ==> XAck(r, id) == r
  {
  }

  lemma RecoverRedis(cfg: Config, s: State, p: ProcId, newId: Id)
    requires p in s.procs && (s.procs[p].phase.Add? ==> s.redis.lastId < newId)
    ensures GoRecover(cfg, s, p, newId).redis == CommandEffect(s.redis, s.procs[p].phase, newId)
  {
    hide RequeueFields, DeadFields, XPending, AfterRead, AfterCheck, Finish, NextInPage, Requeued, XAck;
    if s.procs[p].phase.Clear? || s.procs[p].phase.AckRequeue? || s.procs[p].phase.AckDead? {
      AckAbsent(s.redis, s.procs[p].phase.id);
    }
  }

  /** An XACK of a recovery that wins gives its id this status. */
  lemma WonStatus(s: State, p: ProcId, id: Id, status: Status, x: Id)
    requires x in s.ledger.book || x in AckWon(s, p, id, status).ledger.book
    ensures x in s.ledger.book && x in AckWon(s, p, id, status).ledger.book
    ensures AckWon(s, p, id, status).ledger.book[x].fields == s.ledger.book[x].fields
    ensures AckWon(s, p, id, status).ledger.book[x].status == if x == id then status else s.ledger.book[x].status
  {
    hide XAck;
  }

  /** A recovery finishes nothing, throws away only what its "entry gone" XACK finds pending, and drops a task only
      when there is no dead-letter stream. */
  lemma RecoverStatus(cfg: Config, s: State, p: ProcId, newId: Id, id: Id)
    requires p in s.procs && (s.procs[p].phase.Add? ==> s.redis.lastId < newId)
    requires id in GoRecover(cfg, s, p, newId).ledger.book
    ensures var ph, status := s.procs[p].phase, GoRecover(cfg, s, p, newId).ledger.book[id].status;
            || (id in s.ledger.book && s.ledger.book[id].status == status)
            || ( && !status.Finished? && (status.Discarded? ==> ph.Clear? && ph.id == id && id in s.redis.pel)
                 && (status.Dropped? ==> cfg.dlqStream == "") && (status.InDlq? ==> ph.AddDead?))
  {
    hide RequeueFields, DeadFields, XPending, AfterRead, AfterCheck, Finish, NextInPage, XAdd, XDel, XAddDead, AckWon;
    var ph := s.procs[p].phase;
    if (ph.Clear? || ph.AckRequeue? || ph.AckDead?) && ph.id in s.redis.pel {
      var status := if ph.Clear? then Discarded else if ph.AckRequeue? || cfg.dlqStream != "" then Held else Dropped;
      WonStatus(s, p, ph.id, status, id);
    }
  }

  /** A reader, an extender or `DoneStream` only delivers, or finishes the id it has in hand. */
  lemma OwnStatus(cfg: Config, s: State, p: ProcId, newId: Id, child: ProcId, id: Id)
    requires p in s.procs && CanGo(s, p, newId, child) && id in GoOwn(cfg, s, p, newId, child).ledger.book
    ensures var ph, status := s.procs[p].phase, GoOwn(cfg, s, p, newId, child).ledger.book[id].status;
            id in s.ledger.book &&
            (s.ledger.book[id].status == status || status.Pending? || (status.Finished? && ph.DoneAck? && ph.id == id))
  {
    hide DataStreamName, LockKey, Exists, Batch, XReadGroup, SetNX, Extend, Unlock, CanExtend;
  }

  /** A command that errors changes at most the status of the id in hand, to lost. */
  lemma FailStatus(s: State, p: ProcId, id: Id)
    requires p in s.procs && id in Fail1(s, p).ledger.book
    ensures id in s.ledger.book
    ensures s.ledger.book[id].status == Fail1(s, p).ledger.book[id].status || Fail1(s, p).ledger.book[id].status.Lost?
  {
    hide Finish;
  }

  lemma CancelLedger(s: State, p: ProcId)
    requires p in s.procs
    ensures Cancel1(s, p).ledger == s.ledger
  {
  }

  // ---- Single steps ----

  /** Only a command that succeeds changes the server. */
  lemma FailLeavesRedis(s: State, p: ProcId)
    requires p in s.procs
    ensures Fail1(s, p).redis == s.redis && Cancel1(s, p).redis == s.redis
  {
    hide Finish;
  }

  ghost predicate Monotone(r: Server, r': Server) {
    && r.now <= r'.now && r.cursor <= r'.cursor && r.lastId <= r'.lastId
    && forall id :: id in r'.pel ==> (id in r.pel && r'.pel[id] == r.pel[id]) || r.cursor < id
  }

  lemma RecoverMonotone(cfg: Config, s: State, p: ProcId, newId: Id)
    requires p in s.procs && (s.procs[p].phase.Add? ==> s.redis.lastId < newId)
    ensures Monotone(s.redis, GoRecover(cfg, s, p, newId).redis)
  {
    hide GoRecover, RequeueFields, DeadFields;
    RecoverRedis(cfg, s, p, newId);
  }

  lemma ReadGroupMonotone(r: Server, c: ClientId, upTo: Id)
    requires r.cursor <= upTo
    ensures Monotone(r, XReadGroup(r, c, upTo)) && r.pel.Keys <= XReadGroup(r, c, upTo).pel.Keys
  {
  }

  lemma OwnMonotone(cfg: Config, s: State, p: ProcId, newId: Id, child: ProcId)
    requires p in s.procs && CanGo(s, p, newId, child)
    ensures Monotone(s.redis, GoOwn(cfg, s, p, newId, child).redis)
  {
    hide RequeueFields, DeadFields, DataStreamName, LockKey, Exists, XPending, AfterRead, AfterCheck, Finish, NextInPage,
         Batch, RetryCount, Deliver, Requeued, XReadGroup;
    if s.procs[p].phase.ReaderIdle? {
      ReadGroupMonotone(s.redis, s.procs[p].client, newId);
    }
  }

  /** Time, cursor and ids only grow, and only undelivered ids enter the pending list. */
  lemma StepMonotone(cfg: Config, s: State, e: Event, s': State)
    requires Step(cfg, s, e, s')
    ensures Monotone(s.redis, s'.redis)
  {
    hide GoRecover, GoOwn, Fail1, Cancel1;
    if e.Act? {
      match e.choice
      case Go(newId, child) =>
        RecoverMonotone(cfg, s, e.p, newId);
        OwnMonotone(cfg, s, e.p, newId, child);
      case _ => FailLeavesRedis(s, e.p);
    }
  }

  /** A scan has this id in hand or still to come on its page. */
  predicate OnPage(ph: Phase, id: Id) {
    Recovering(ph) && ph.via.Scan? && (ph.id == id || id in ph.via.rest)
  }

  lemma RecoverBystander(cfg: Config, s: State, p: ProcId, newId: Id, q: ProcId)
    requires p in s.procs && (s.procs[p].phase.Add? ==> s.redis.lastId < newId) && p != q
    ensures q in GoRecover(cfg, s, p, newId).procs ==>
            q in s.procs && GoRecover(cfg, s, p, newId).procs[q] == s.procs[q]
  {
    hide RequeueFields, DeadFields, DataStreamName, LockKey, Exists, XPending, AfterRead, AfterCheck, Finish, NextInPage,
         Batch, RetryCount, Deliver, Requeued, XReadGroup, XAdd, XAck, XDel;
  }

  lemma OwnBystander(cfg: Config, s: State, p: ProcId, newId: Id, child: ProcId, q: ProcId)
    requires p in s.procs && CanGo(s, p, newId, child) && p != q
    ensures q in GoOwn(cfg, s, p, newId, child).procs ==>
            if q in s.procs then GoOwn(cfg, s, p, newId, child).procs[q] == s.procs[q]
            else GoOwn(cfg, s, p, newId, child).procs[q].phase.ExtCheck?
  {
    hide RequeueFields, DeadFields, DataStreamName, LockKey, Exists, XPending, AfterRead, AfterCheck, Finish, NextInPage,
         Batch, RetryCount, Deliver, Requeued, XReadGroup, XAdd, XAck, XDel;
  }

  lemma FailBystander(s: State, p: ProcId, q: ProcId)
    requires p in s.procs && p != q
    ensures q in Fail1(s, p).procs ==> q in s.procs && Fail1(s, p).procs[q] == s.procs[q]
    ensures q in Cancel1(s, p).procs ==> q in s.procs && Cancel1(s, p).procs[q] == s.procs[q]
  {
    hide Finish;
  }

  /** A process that does not act keeps its phase; one that has just started is at its first command. */
  lemma Bystander(cfg: Config, s: State, e: Event, s': State, p: ProcId)
    requires Step(cfg, s, e, s') && p in s'.procs && !(e.Act? && e.p == p)
    ensures p in s.procs ==> s'.procs[p] == s.procs[p]
    ensures p !in s.procs ==> var ph := s'.procs[p].phase;
      || ph.ScanIdle? || ph.ReaderIdle? || ph.DoneAck? || ph.ExtCheck?
      || (e.StartClaim? && ph == Read(e.id, Claim(e.id <= s.redis.lastId)))
  {
    hide GoRecover, GoOwn, Fail1, Cancel1;
    if e.Act? {
      match e.choice
      case Go(newId, child) =>
        RecoverBystander(cfg, s, e.p, newId, p);
        OwnBystander(cfg, s, e.p, newId, child, p);
      case _ => FailBystander(s, e.p, p);
    }
  }

  lemma RecoverPhase(cfg: Config, s: State, p: ProcId, newId: Id)
    requires p in s.procs && (s.procs[p].phase.Add? ==> s.redis.lastId < newId)
    ensures p in GoRecover(cfg, s, p, newId).procs
    ensures GoRecover(cfg, s, p, newId).procs[p].phase == NextPhase(cfg, s.redis, s.procs[p].phase)
  {
    hide RequeueFields, DeadFields, DataStreamName, LockKey, Exists, XPending, AfterRead, AfterCheck, Finish, NextInPage,
         Batch, RetryCount, Deliver, Requeued, XReadGroup, XAdd, XAck, XDel;
  }

  lemma OwnPhase(cfg: Config, s: State, p: ProcId, newId: Id, child: ProcId)
    requires p in s.procs && CanGo(s, p, newId, child) && !Recovering(s.procs[p].phase)
    ensures p in GoOwn(cfg, s, p, newId, child).procs
    ensures !Recovering(GoOwn(cfg, s, p, newId, child).procs[p].phase)
  {
    hide RequeueFields, DeadFields, DataStreamName, LockKey, Exists, XPending, AfterRead, AfterCheck, Finish, NextInPage,
         Batch, RetryCount, Deliver, Requeued, XReadGroup, XAdd, XAck, XDel;
  }

  lemma GoPhase(cfg: Config, s: State, p: ProcId, newId: Id, child: ProcId)
    requires p in s.procs && CanGo(s, p, newId, child)
    ensures p in Go1(cfg, s, p, newId, child).procs
    ensures Recovering(s.procs[p].phase) || s.procs[p].phase.ScanIdle? ==>
            Go1(cfg, s, p, newId, child).procs[p].phase == NextPhase(cfg, s.redis, s.procs[p].phase)
    ensures !Recovering(s.procs[p].phase) && !s.procs[p].phase.ScanIdle? ==>
            !Recovering(Go1(cfg, s, p, newId, child).procs[p].phase)
  {
    hide GoRecover, GoOwn, NextPhase;
    RecoverPhase(cfg, s, p, newId);
    if !Recovering(s.procs[p].phase) {
      OwnPhase(cfg, s, p, newId, child);
    }
  }

  /** A failing or cancelled recovery returns, any other process stays out of recovery. */
  lemma FailPhase(s: State, p: ProcId)
    requires p in s.procs
    ensures p in Fail1(s, p).procs && p in Cancel1(s, p).procs
    ensures Cancel1(s, p).procs[p].phase == s.procs[p].phase || !Recovering(Cancel1(s, p).procs[p].phase)
    ensures var ph, ph' := s.procs[p].phase, Fail1(s, p).procs[p].phase;
      if Recovering(ph) then exists o, b :: ph' == Finish(ph.via, ph.id, o, b) else !Recovering(ph')
  {
    hide Finish;
  }

  lemma NextPhaseOnPage(cfg: Config, s: State, p: ProcId, id: Id)
    requires p in s.procs && OnPage(NextPhase(cfg, s.redis, s.procs[p].phase), id)
    ensures OnPage(s.procs[p].phase, id) || (s.procs[p].phase.ScanIdle? && id in IdleIds(s.redis, cfg.minIdle))
  {
    hide DataStreamName, LockKey, Exists, RetryCount, NextRetry, XPending, IdleIds;
    var page := XPending(s.redis, cfg.minIdle, cfg.batchSize);
    assert page != [] ==> forall x :: x == page[0] || x in page[1..] ==> x in page;
  }

  /** How an id gets onto the page of a process: it was there, or XPENDING has just listed it. */
  lemma OnPageStep(cfg: Config, s: State, e: Event, s': State, p: ProcId, id: Id)
    requires Step(cfg, s, e, s') && p in s'.procs && OnPage(s'.procs[p].phase, id)
    ensures p in s.procs
    ensures OnPage(s.procs[p].phase, id) || (s.procs[p].phase.ScanIdle? && id in IdleIds(s.redis, cfg.minIdle))
  {
    hide Go1, Fail1, Cancel1, NextPhase, IdleIds, CanGo;
    if e.Act? && e.p == p {
      FailPhase(s, p);
      if e.choice.Go? {
        GoPhase(cfg, s, p, e.choice.newId, e.choice.child);
        NextPhaseOnPage(cfg, s, p, id);
      }
    } else {
      Bystander(cfg, s, e, s', p);
    }
  }

  /** Past the liveness check: about to XACK after having seen the lock key absent. */
  predicate PastCheck(ph: Phase) {
    ph.AckRequeue? || (ph.AckDead? && ph.reason == REASON_MAX_RETRIES)
  }

  lemma NextPhasePastCheck(cfg: Config, s: State, p: ProcId)
    requires p in s.procs && (Recovering(s.procs[p].phase) || s.procs[p].phase.ScanIdle?)
    requires PastCheck(NextPhase(cfg, s.redis, s.procs[p].phase))
    ensures CameFromCheck(s.redis, s.procs[p].phase, NextPhase(cfg, s.redis, s.procs[p].phase))
  {
    hide DataStreamName, LockKey, Exists, RetryCount, NextRetry, XPending, IdleIds;
  }

  /** EXISTS found no key and the process went on to phase `ph'`. */
  predicate CameFromCheck(r: Server, ph: Phase, ph': Phase)
    requires PastCheck(ph')
  {
    && ph.Check? && ph.id == ph'.id && ph.via == ph'.via && ph.fields == ph'.fields
    && !Exists(r, LockKey(ph.name, ph.id))
  }

  /** How a process gets past the check: it was there, or EXISTS has just found no key. */
  lemma PastCheckStep(cfg: Config, s: State, e: Event, s': State, p: ProcId)
    requires Step(cfg, s, e, s') && p in s'.procs && PastCheck(s'.procs[p].phase)
    ensures p in s.procs
    ensures s.procs[p].phase == s'.procs[p].phase || CameFromCheck(s.redis, s.procs[p].phase, s'.procs[p].phase)
  {
    hide Go1, Fail1, Cancel1, NextPhase, CameFromCheck, CanGo;
    if e.Act? && e.p == p {
      FailPhase(s, p);
      if e.choice.Go? {
        GoPhase(cfg, s, p, e.choice.newId, e.choice.child);
        NextPhasePastCheck(cfg, s, p);
      }
    } else {
      Bystander(cfg, s, e, s', p);
    }
  }

  lemma RecoverTakes(cfg: Config, s: State, p: ProcId, newId: Id, id: Id)
    requires p in s.procs && (s.procs[p].phase.Add? ==> s.redis.lastId < newId)
    requires id in s.redis.pel && id !in GoRecover(cfg, s, p, newId).redis.pel
    ensures TakesId(s.procs[p].phase, id)
  {
    hide GoRecover, RequeueFields, DeadFields;
    RecoverRedis(cfg, s, p, newId);
  }

  lemma OwnTakes(cfg: Config, s: State, p: ProcId, newId: Id, child: ProcId, id: Id)
    requires p in s.procs && CanGo(s, p, newId, child)
    requires id in s.redis.pel && id !in GoOwn(cfg, s, p, newId, child).redis.pel
    ensures TakesId(s.procs[p].phase, id)
  {
    hide RequeueFields, DeadFields, DataStreamName, LockKey, Exists, XPending, AfterRead, AfterCheck, Finish, NextInPage,
         Batch, RetryCount, Deliver, Requeued, XReadGroup;
    if s.procs[p].phase.ReaderIdle? {
      ReadGroupMonotone(s.redis, s.procs[p].client, newId);
    }
  }

  /** The XACK phases. */
  predicate TakesId(ph: Phase, id: Id) {
    (ph.Clear? || ph.AckRequeue? || ph.AckDead? || ph.DoneAck?) && ph.id == id
  }

  /** The process that takes an id out of the pending list, and with which command. */
  lemma TakeStep(cfg: Config, s: State, e: Event, s': State, id: Id)
    requires Step(cfg, s, e, s') && id in s.redis.pel && id !in s'.redis.pel
    ensures e.Act? && e.choice.Go? && e.p in s.procs && TakesId(s.procs[e.p].phase, id)
  {
    hide GoRecover, GoOwn, Fail1, Cancel1;
    if e.Act? {
      match e.choice
      case Go(newId, child) =>
        if s.procs[e.p].phase.ScanIdle? || Recovering(s.procs[e.p].phase) {
          RecoverTakes(cfg, s, e.p, newId, id);
        } else {
          OwnTakes(cfg, s, e.p, newId, child, id);
        }
      case _ => FailLeavesRedis(s, e.p);
    }
  }
}

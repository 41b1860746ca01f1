/**
 Theorems about whole runs of the recovery protocol: who may take an id out of
 the pending list, what it must have seen before, and why a live owner is left
 alone.
 */
module Runs {
  import opened Wrappers
  import opened MutexKey
  import opened Entry
  import opened Redis
  import opened Protocol
  import opened Invariant
  import opened Preservation
  import opened Witness

  lemma StepAt(cfg: Config, tr: seq<State>, es: seq<Event>, k: nat)
    requires Run(cfg, tr, es) && k < |es|
    ensures Step(cfg, tr[k], es[k], tr[k + 1])
  {
  }

  lemma {:induction false} TimeGrows(cfg: Config, tr: seq<State>, es: seq<Event>, i: nat, k: nat)
    requires Run(cfg, tr, es) && i <= k <= |es|
    ensures tr[i].redis.now <= tr[k].redis.now && tr[i].redis.cursor <= tr[k].redis.cursor
    decreases k
  {
    hide Init, Step;
    if i < k {
      TimeGrows(cfg, tr, es, i, k - 1);
      StepAt(cfg, tr, es, k - 1);
      StepMonotone(cfg, tr[k - 1], es[k - 1], tr[k]);
    }
  }

  /** An id that is pending and was delivered before some point has been pending ever since. */
  lemma {:induction false} PendingThroughout(cfg: Config, tr: seq<State>, es: seq<Event>, i: nat, m: nat, k: nat, id: Id)
    requires Run(cfg, tr, es) && i <= m <= k <= |es|
    requires id in tr[k].redis.pel && id <= tr[i].redis.cursor
    ensures id in tr[m].redis.pel && tr[m].redis.pel[id] == tr[k].redis.pel[id]
    decreases k - m
  {
    hide Init, Step;
    if m < k {
      PendingThroughout(cfg, tr, es, i, m + 1, k, id);
      TimeGrows(cfg, tr, es, i, m);
      StepAt(cfg, tr, es, m);
      StepMonotone(cfg, tr[m], es[m], tr[m + 1]);
    }
  }

  /** The event at position `k` takes `id` out of the pending list: some XACK reported 1. */
  ghost predicate Takes(tr: seq<State>, k: nat, id: Id)
    requires k + 1 < |tr|
  {
    id in tr[k].redis.pel && id !in tr[k + 1].redis.pel
  }

  /** Across all recoveries and DoneStream calls of a run, one XACK per id reports 1. */
  lemma LeavesOnce(cfg: Config, tr: seq<State>, es: seq<Event>, i: nat, j: nat, id: Id)
    requires ValidConfig(cfg) && Run(cfg, tr, es) && i < |es| && j < |es|
    requires Takes(tr, i, id) && Takes(tr, j, id)
    ensures i == j
  {
    hide Init, Step, Inv;
    var first, last := if i < j then i else j, if i < j then j else i;
    PendingIsDelivered(cfg, tr, es, first, id);
    TimeGrows(cfg, tr, es, first, first + 1);
    if first < last {
      PendingThroughout(cfg, tr, es, first + 1, first + 1, last, id);
    }
  }

  lemma PendingIsDelivered(cfg: Config, tr: seq<State>, es: seq<Event>, k: nat, id: Id)
    requires ValidConfig(cfg) && Run(cfg, tr, es) && k <= |es| && id in tr[k].redis.pel
    ensures id <= tr[k].redis.cursor && id in tr[k].redis.entries
  {
    hide Init, Step;
    RunInv(cfg, tr, es, k);
    hide BookInv, DeadInv, ProcsInv, LocalsInv, HeldInv;
    assert StatusOk(tr[k], id);
  }

  // ---- Witnesses ----

  /** Where XPENDING listed an id that a scan has in hand. */
  lemma {:induction false} ListedAt(cfg: Config, tr: seq<State>, es: seq<Event>, k: nat, p: ProcId, id: Id)
    returns (i: nat)
    requires Run(cfg, tr, es) && k <= |es| && p in tr[k].procs && OnPage(tr[k].procs[p].phase, id)
    ensures i < k && id in IdleIds(tr[i].redis, cfg.minIdle)
    decreases k
  {
    hide Step, OnPage, IdleIds;
    assert k > 0;
    StepAt(cfg, tr, es, k - 1);
    OnPageStep(cfg, tr[k - 1], es[k - 1], tr[k], p, id);
    if OnPage(tr[k - 1].procs[p].phase, id) {
      i := ListedAt(cfg, tr, es, k - 1, p, id);
    } else {
      i := k - 1;
    }
  }

  /** Where the liveness check of a recovery found no lock key. */
  lemma {:induction false} AbsentAt(cfg: Config, tr: seq<State>, es: seq<Event>, k: nat, p: ProcId) returns (j: nat)
    requires Run(cfg, tr, es) && k <= |es| && p in tr[k].procs && PastCheck(tr[k].procs[p].phase)
    ensures j < k && p in tr[j].procs && CameFromCheck(tr[j].redis, tr[j].procs[p].phase, tr[k].procs[p].phase)
    decreases k
  {
    hide Step, CameFromCheck, PastCheck;
    assert k > 0;
    StepAt(cfg, tr, es, k - 1);
    PastCheckStep(cfg, tr[k - 1], es[k - 1], tr[k], p);
    if tr[k - 1].procs[p].phase == tr[k].procs[p].phase {
      j := AbsentAt(cfg, tr, es, k - 1, p);
    } else {
      j := k - 1;
    }
  }

  /** The task of `id` has the data stream `name`. */
  ghost predicate NameOf(cfg: Config, s: State, id: Id, name: string) {
    id in s.ledger.book && DataStreamName(cfg.parse, s.ledger.book[id].fields) == Ok(name)
  }

  /** The process behind event `k`, when it is a recovery. */
  ghost predicate ByRecovery(tr: seq<State>, es: seq<Event>, k: nat, scan: bool)
    requires k < |es| && k < |tr|
  {
    && es[k].Act? && es[k].p in tr[k].procs && Recovering(tr[k].procs[es[k].p].phase)
    && (scan ==> tr[k].procs[es[k].p].phase.via.Scan?)
  }

  /** A recovery that takes a parseable id, and did not find the entry gone, is past its liveness check. */
  lemma TakerIsPastCheck(cfg: Config, tr: seq<State>, es: seq<Event>, k: nat, id: Id, name: string)
    requires ValidConfig(cfg) && Run(cfg, tr, es) && k < |es| && Takes(tr, k, id)
    requires ByRecovery(tr, es, k, false) && NameOf(cfg, tr[k], id, name)
    requires tr[k].procs[es[k].p].phase.Clear? ==> Issued(tr[k].procs[es[k].p].phase.via)
    ensures var ph := tr[k].procs[es[k].p].phase; PastCheck(ph) && ph.id == id
    ensures Knows(tr[k].ledger, id, tr[k].procs[es[k].p].phase.fields)
  {
    hide Init, Step;
    StepAt(cfg, tr, es, k);
    TakeStep(cfg, tr[k], es[k], tr[k + 1], id);
    RunInv(cfg, tr, es, k);
    hide BookInv, DeadInv, LocalsInv, HeldInv, DataStreamName;
    assert ProcOk(cfg, tr[k].ledger, tr[k].redis.lastId, es[k].p, tr[k].procs[es[k].p].phase);
  }

  /** The check that `AbsentAt` finds is a check of the key of that very entry. */
  lemma CheckedKey(cfg: Config, tr: seq<State>, es: seq<Event>, j: nat, p: ProcId, f: Fields, name: string)
    requires ValidConfig(cfg) && Run(cfg, tr, es) && j <= |es| && p in tr[j].procs && tr[j].procs[p].phase.Check?
    requires tr[j].procs[p].phase.fields == f && DataStreamName(cfg.parse, f) == Ok(name)
    ensures tr[j].procs[p].phase.name == name && NameOf(cfg, tr[j], tr[j].procs[p].phase.id, name)
  {
    hide Init, Step, DataStreamName;
    RunInv(cfg, tr, es, j);
    hide BookInv, DeadInv, LocalsInv, HeldInv, RedisInv;
    assert ProcOk(cfg, tr[j].ledger, tr[j].redis.lastId, p, tr[j].procs[p].phase);
  }

  /** Every recovery that takes an id saw its lock key absent at an earlier instant of the same call. */
  lemma RecoveryWitness(cfg: Config, tr: seq<State>, es: seq<Event>, k: nat, id: Id, name: string) returns (j: nat)
    requires ValidConfig(cfg) && Run(cfg, tr, es) && k < |es| && Takes(tr, k, id)
    requires ByRecovery(tr, es, k, false) && NameOf(cfg, tr[k], id, name)
    requires tr[k].procs[es[k].p].phase.Clear? ==> Issued(tr[k].procs[es[k].p].phase.via)
    ensures j < k && !Exists(tr[j].redis, LockKey(name, id)) && NameOf(cfg, tr[j], id, name)
    ensures es[k].p in tr[j].procs && Recovering(tr[j].procs[es[k].p].phase)
    ensures tr[j].procs[es[k].p].phase.id == id
    ensures tr[j].procs[es[k].p].phase.via == tr[k].procs[es[k].p].phase.via
  {
    hide Init, Step, Inv, Exists, DataStreamName;
    TakerIsPastCheck(cfg, tr, es, k, id, name);
    j := AbsentAt(cfg, tr, es, k, es[k].p);
    CheckedKey(cfg, tr, es, j, es[k].p, tr[k].procs[es[k].p].phase.fields, name);
  }

  /**
   Every re-queue or dead-lettering by a scan has its witnesses: XPENDING listed the id as idle at `i`, the
   lock key was absent at `j`, and the id was pending without a break from the listing to the won XACK.
   */
  lemma ScanWitness(cfg: Config, tr: seq<State>, es: seq<Event>, k: nat, id: Id, name: string) returns (i: nat, j: nat)
    requires ValidConfig(cfg) && Run(cfg, tr, es) && k < |es| && Takes(tr, k, id)
    requires ByRecovery(tr, es, k, true) && NameOf(cfg, tr[k], id, name)
    ensures i < j < k && !Exists(tr[j].redis, LockKey(name, id))
    ensures id in IdleIds(tr[i].redis, cfg.minIdle)
    ensures forall m :: i <= m <= k ==> id in tr[m].redis.pel && tr[m].redis.pel[id] == tr[i].redis.pel[id]
  {
    hide Init, Step, Inv, Exists, DataStreamName;
    j := RecoveryWitness(cfg, tr, es, k, id, name);
    i := ListedAt(cfg, tr, es, j, es[k].p, id);
    PendingIsDelivered(cfg, tr, es, i, id);
    forall m | i <= m <= k ensures id in tr[m].redis.pel && tr[m].redis.pel[id] == tr[i].redis.pel[id] {
      PendingThroughout(cfg, tr, es, i, m, k, id);
      PendingThroughout(cfg, tr, es, i, i, k, id);
    }
  }

  // ---- How long an entry has been idle ----

  /** A delivery is made by a reader, to its own client, at the time of the step. */
  lemma DeliveryStep(cfg: Config, s: State, e: Event, s': State, id: Id)
    requires Step(cfg, s, e, s') && id !in s.redis.pel && id in s'.redis.pel
    ensures e.Act? && e.p in s.procs && s.procs[e.p].phase.ReaderIdle?
    ensures s'.redis.pel[id] == Delivery(s.procs[e.p].client, s.redis.now)
  {
    hide GoRecover, GoOwn, Fail1, Cancel1;
    if e.Act? {
      match e.choice
      case Go(newId, child) =>
        if s.procs[e.p].phase.ScanIdle? || Recovering(s.procs[e.p].phase) {
          RecoverMonotonePel(cfg, s, e.p, newId);
        } else {
          OwnDelivers(cfg, s, e.p, newId, child, id);
        }
      case _ => FailLeavesRedis(s, e.p);
    }
  }

  lemma RecoverMonotonePel(cfg: Config, s: State, p: ProcId, newId: Id)
    requires p in s.procs && (s.procs[p].phase.Add? ==> s.redis.lastId < newId)
    ensures GoRecover(cfg, s, p, newId).redis.pel.Keys <= s.redis.pel.Keys
  {
    hide GoRecover, RequeueFields, DeadFields;
    RecoverRedis(cfg, s, p, newId);
  }

  lemma OwnDelivers(cfg: Config, s: State, p: ProcId, newId: Id, child: ProcId, id: Id)
    requires p in s.procs && CanGo(s, p, newId, child)
    requires id !in s.redis.pel && id in GoOwn(cfg, s, p, newId, child).redis.pel
    ensures s.procs[p].phase.ReaderIdle?
    ensures GoOwn(cfg, s, p, newId, child).redis.pel[id] == Delivery(s.procs[p].client, s.redis.now)
  {
    hide DataStreamName, LockKey, Exists, Batch, Deliver;
  }

  /** A scan can list a pending entry exactly from MinIdleTime after its delivery on, whoever it was delivered to. */
  lemma IdleSinceDelivery(cfg: Config, tr: seq<State>, es: seq<Event>, k: nat, m: nat, id: Id)
    requires ValidConfig(cfg) && Run(cfg, tr, es) && k < m <= |es|
    requires id !in tr[k].redis.pel && id in tr[k + 1].redis.pel && id in tr[m].redis.pel
    ensures es[k].Act? && es[k].p in tr[k].procs && tr[m].redis.pel[id].consumer == tr[k].procs[es[k].p].client
    ensures id in IdleIds(tr[m].redis, cfg.minIdle) <==> tr[k].redis.now + cfg.minIdle <= tr[m].redis.now
  {
    hide Init, Step, Inv;
    StepAt(cfg, tr, es, k);
    DeliveryStep(cfg, tr[k], es[k], tr[k + 1], id);
    PendingIsDelivered(cfg, tr, es, k + 1, id);
    PendingThroughout(cfg, tr, es, k + 1, k + 1, m, id);
  }

  // ---- A slow but live owner ----

  /** In this state a scan could list `id`: it is pending and idle for long enough. */
  ghost predicate Exposed(cfg: Config, s: State, id: Id) {
    id in IdleIds(s.redis, cfg.minIdle)
  }

  /**
   If the lock key of an entry is present whenever the entry is exposed, no scan of any client ever
   acknowledges, re-queues or dead-letters it.
   */
  lemma SlowOwnerUndisturbed(cfg: Config, tr: seq<State>, es: seq<Event>, k: nat, id: Id, name: string)
    requires ValidConfig(cfg) && Run(cfg, tr, es) && k < |es| && NameOf(cfg, tr[k], id, name)
    requires forall m :: 0 <= m <= k && Exposed(cfg, tr[m], id) ==> Exists(tr[m].redis, LockKey(name, id))
    ensures Takes(tr, k, id) ==> !ByRecovery(tr, es, k, true)
  {
    hide Init, Step, Inv, Exists, DataStreamName;
    if Takes(tr, k, id) && ByRecovery(tr, es, k, true) {
      var i, j := ScanWitness(cfg, tr, es, k, id, name);
      TimeGrows(cfg, tr, es, i, j);
      assert false;
    }
  }
}

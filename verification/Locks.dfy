/**
 The life of lock keys over runs: while an entry is pending its key is never
 deleted and its expiry never moves back, so each Lock or Extend protects the
 entry for a whole heartbeat interval.
 */
module Locks {
  import opened MutexKey
  import opened Entry
  import opened Redis
  import opened Protocol
  import opened Invariant
  import opened Preservation
  import opened Witness
  import opened Runs

  // ---- Lock keys ----

  /** No key lives longer than one heartbeat interval from now. */
  ghost predicate LockInv(cfg: Config, r: Server) {
    forall key :: key in r.locks ==> r.locks[key].expiresAt <= r.now + cfg.hbInterval
  }

  /** A key is left as it was, removed, or set for a full interval. */
  ghost predicate KeyKept(cfg: Config, r: Server, r': Server, key: string) {
    && r'.now == r.now
    && (key in r'.locks ==>
          (key in r.locks && r'.locks[key] == r.locks[key]) || r'.locks[key].expiresAt == r.now + cfg.hbInterval)
  }

  lemma RecoverLeavesLocks(cfg: Config, s: State, p: ProcId, newId: Id)
    requires p in s.procs && (s.procs[p].phase.Add? ==> s.redis.lastId < newId)
    ensures GoRecover(cfg, s, p, newId).redis.locks == s.redis.locks
    ensures GoRecover(cfg, s, p, newId).redis.now == s.redis.now
  {
    hide GoRecover, RequeueFields, DeadFields;
    RecoverRedis(cfg, s, p, newId);
  }

  lemma ReadGroupLeavesLocks(r: Server, c: ClientId, upTo: Id)
    requires r.cursor <= upTo
    ensures XReadGroup(r, c, upTo).locks == r.locks && XReadGroup(r, c, upTo).now == r.now
  {
  }

  lemma OwnTouchesLocks(cfg: Config, s: State, p: ProcId, newId: Id, child: ProcId, key: string)
    requires p in s.procs && CanGo(s, p, newId, child)
    ensures KeyKept(cfg, s.redis, GoOwn(cfg, s, p, newId, child).redis, key)
    ensures key in s.redis.locks && key !in GoOwn(cfg, s, p, newId, child).redis.locks ==>
            s.procs[p].phase.DoneUnlock? && key == LockKey(s.procs[p].phase.name, s.procs[p].phase.id)
  {
    hide DataStreamName, LockKey, Batch, Deliver, Undelivered, XReadGroup, LocalsOf;
    if s.procs[p].phase.ReaderIdle? {
      ReadGroupLeavesLocks(s.redis, s.procs[p].client, newId);
    }
  }

  /** What a step can do to a key: nothing, renew it to a full interval, or unlock it. */
  lemma LockStep(cfg: Config, s: State, e: Event, s': State, key: string)
    requires Step(cfg, s, e, s')
    ensures key in s'.redis.locks ==>
      || (key in s.redis.locks && s'.redis.locks[key] == s.redis.locks[key])
      || (s'.redis.locks[key].expiresAt == s.redis.now + cfg.hbInterval && s'.redis.now == s.redis.now)
    ensures key in s.redis.locks && key !in s'.redis.locks ==>
      && e.Act? && e.p in s.procs && s.procs[e.p].phase.DoneUnlock?
      && key == LockKey(s.procs[e.p].phase.name, s.procs[e.p].phase.id)
    ensures s.redis.now <= s'.redis.now
  {
    hide GoRecover, GoOwn, Fail1, Cancel1;
    if e.Act? {
      match e.choice
      case Go(newId, child) =>
        RecoverLeavesLocks(cfg, s, e.p, newId);
        OwnTouchesLocks(cfg, s, e.p, newId, child, key);
      case _ => FailLeavesRedis(s, e.p);
    }
  }

  lemma {:induction false} RunLockInv(cfg: Config, tr: seq<State>, es: seq<Event>, k: nat)
    requires Run(cfg, tr, es) && k <= |es|
    ensures LockInv(cfg, tr[k].redis)
  {
    hide Step;
    if k > 0 {
      RunLockInv(cfg, tr, es, k - 1);
      StepAt(cfg, tr, es, k - 1);
      forall key | key in tr[k].redis.locks
        ensures tr[k].redis.locks[key].expiresAt <= tr[k].redis.now + cfg.hbInterval
      {
        LockStep(cfg, tr[k - 1], es[k - 1], tr[k], key);
      }
    }
  }

  /** The key is in Redis and will not expire before `until`. */
  ghost predicate LivesUntil(r: Server, key: string, until: nat) {
    key in r.locks && until <= r.locks[key].expiresAt
  }

  /** Nobody can delete or shorten the key of a pending entry in one step. */
  lemma KeyStep(cfg: Config, tr: seq<State>, es: seq<Event>, k: nat, id: Id, name: string, until: nat)
    requires ValidConfig(cfg) && Run(cfg, tr, es) && k < |es|
    requires id in tr[k].redis.pel && LivesUntil(tr[k].redis, LockKey(name, id), until)
    ensures LivesUntil(tr[k + 1].redis, LockKey(name, id), until)
  {
    hide Step, Init, LockKey;
    var key := LockKey(name, id);
    StepAt(cfg, tr, es, k);
    RunLockInv(cfg, tr, es, k);
    LockStep(cfg, tr[k], es[k], tr[k + 1], key);
    RunInv(cfg, tr, es, k);
    hide BookInv, DeadInv, LocalsInv, HeldInv, DataStreamName;
    if key !in tr[k + 1].redis.locks {
      var ph := tr[k].procs[es[k].p].phase;
      assert ProcOk(cfg, tr[k].ledger, tr[k].redis.lastId, es[k].p, ph);
      LockKeyInjective(name, id, ph.name, ph.id);
    }
  }

  lemma {:induction false} KeyOutlives(cfg: Config, tr: seq<State>, es: seq<Event>, j: nat, k: nat, id: Id, name: string,
                                       until: nat)
    requires ValidConfig(cfg) && Run(cfg, tr, es) && j <= k <= |es|
    requires id in tr[j].redis.pel && id in tr[k].redis.pel && LivesUntil(tr[j].redis, LockKey(name, id), until)
    ensures LivesUntil(tr[k].redis, LockKey(name, id), until)
    decreases k
  {
    hide Step, Init, LockKey, LivesUntil, Inv;
    if j < k {
      PendingIsDelivered(cfg, tr, es, j, id);
      PendingThroughout(cfg, tr, es, j, k - 1, k, id);
      KeyOutlives(cfg, tr, es, j, k - 1, id, name, until);
      KeyStep(cfg, tr, es, k - 1, id, name, until);
    }
  }

  /** The key has just been set or renewed for a full heartbeat interval. */
  ghost predicate Renewed(cfg: Config, r: Server, key: string) {
    LivesUntil(r, key, r.now + cfg.hbInterval)
  }

  /** The owner's last Lock or Extend of the key is less than one heartbeat interval ago. */
  ghost predicate RecentlyRenewed(cfg: Config, tr: seq<State>, k: nat, id: Id, name: string)
    requires k < |tr|
  {
    exists j :: 0 <= j <= k && id in tr[j].redis.pel && Renewed(cfg, tr[j].redis, LockKey(name, id))
                && tr[k].redis.now < tr[j].redis.now + cfg.hbInterval
  }

  lemma RenewedIsPresent(cfg: Config, tr: seq<State>, es: seq<Event>, k: nat, id: Id, name: string)
    requires ValidConfig(cfg) && Run(cfg, tr, es) && k <= |es|
    requires id in tr[k].redis.pel && RecentlyRenewed(cfg, tr, k, id, name)
    ensures Exists(tr[k].redis, LockKey(name, id))
  {
    hide Step, Init, LockKey;
    var j :| 0 <= j <= k && id in tr[j].redis.pel && Renewed(cfg, tr[j].redis, LockKey(name, id))
             && tr[k].redis.now < tr[j].redis.now + cfg.hbInterval;
    KeyOutlives(cfg, tr, es, j, k, id, name, tr[j].redis.now + cfg.hbInterval);
  }

  /**
   An owner whose heartbeat keeps up is never disturbed: if, whenever its entry is exposed, it has locked or
   extended the key within the last heartbeat interval, no scan takes the entry.
   */
  lemma HeartbeatProtects(cfg: Config, tr: seq<State>, es: seq<Event>, k: nat, id: Id, name: string)
    requires ValidConfig(cfg) && Run(cfg, tr, es) && k < |es| && NameOf(cfg, tr[k], id, name)
    requires forall m :: 0 <= m <= k && Exposed(cfg, tr[m], id) ==> RecentlyRenewed(cfg, tr, m, id, name)
    ensures Takes(tr, k, id) ==> !ByRecovery(tr, es, k, true)
  {
    hide Step, Init, LockKey, Exists, RecentlyRenewed, DataStreamName, Takes, ByRecovery;
    forall m | 0 <= m <= k && Exposed(cfg, tr[m], id) ensures Exists(tr[m].redis, LockKey(name, id)) {
      RenewedIsPresent(cfg, tr, es, m, id, name);
    }
    SlowOwnerUndisturbed(cfg, tr, es, k, id, name);
  }
}

/**
 The heartbeat: the lock key of an entry only ever belongs to the consumer the
 entry was delivered to, so that consumer's Extend cannot fail while the entry
 is pending, and an extender that keeps its rhythm keeps the key alive.
 */
module Heartbeat {
  import opened Wrappers
  import opened MutexKey
  import opened Entry
  import opened Redis
  import opened Protocol
  import opened Invariant
  import opened Preservation
  import opened Witness
  import opened Runs
  import opened Locks

  // ---- Whose key it is ----

  /** If `id` is pending at all, it was delivered to `c`. */
  ghost predicate DeliveredTo(r: Server, id: Id, c: ClientId) {
    id <= r.cursor && (id in r.pel ==> r.pel[id].consumer == c)
  }

  /** A reader or extender only works on entries delivered to its own client. */
  ghost predicate OwnWork(r: Server, c: ClientId, ph: Phase) {
    match ph
    case Locking(batch) => forall m :: m in batch ==> DeliveredTo(r, m.id, c)
    case Register(_, batch) => forall m :: m in batch ==> DeliveredTo(r, m.id, c)
    case ExtCheck(_, id) => DeliveredTo(r, id, c)
    case ExtExtend(_, id) => DeliveredTo(r, id, c)
    case _ => true
  }

  ghost predicate KeysInv(r: Server) {
    forall name, id :: LockKey(name, id) in r.locks ==> DeliveredTo(r, id, r.locks[LockKey(name, id)].owner)
  }

  ghost predicate OwnerInv(s: State) {
    && KeysInv(s.redis)
    && forall p :: p in s.procs ==> OwnWork(s.redis, s.procs[p].client, s.procs[p].phase)
  }

  lemma DeliveredToStays(r: Server, r': Server, id: Id, c: ClientId)
    requires Monotone(r, r') && DeliveredTo(r, id, c)
    ensures DeliveredTo(r', id, c)
  {
  }

  lemma OwnWorkStays(r: Server, r': Server, c: ClientId, ph: Phase)
    requires Monotone(r, r') && OwnWork(r, c, ph)
    ensures OwnWork(r', c, ph)
  {
  }

  /** The id whose key the next command of this phase may set. */
  ghost predicate MaySet(cfg: Config, ph: Phase, name: string, id: Id) {
    || (ph.Locking? && ph.batch != [] && ph.batch[0].id == id && DataStreamName(cfg.parse, ph.batch[0].fields) == Ok(name))
    || (ph.ExtExtend? && ph.name == name && ph.id == id)
  }

  /** A key that changed hands or expiry was set by the acting process, on work of its own. */
  lemma OwnSetsKey(cfg: Config, s: State, p: ProcId, newId: Id, child: ProcId, key: string) returns (name: string, id: Id)
    requires p in s.procs && CanGo(s, p, newId, child)
    requires var r' := GoOwn(cfg, s, p, newId, child).redis;
             key in r'.locks && !(key in s.redis.locks && r'.locks[key] == s.redis.locks[key])
    ensures MaySet(cfg, s.procs[p].phase, name, id) && key == LockKey(name, id)
    ensures GoOwn(cfg, s, p, newId, child).redis.locks[key].owner == s.procs[p].client
  {
    hide LockKey, Batch, Deliver, Undelivered;
    var ph := s.procs[p].phase;
    if ph.ExtExtend? {
      name, id := ph.name, ph.id;
    } else {
      assert ph.Locking?;
      name, id := DataStreamName(cfg.parse, ph.batch[0].fields).value, ph.batch[0].id;
    }
  }

  lemma KeysStep(cfg: Config, s: State, e: Event, s': State)
    requires Step(cfg, s, e, s') && OwnerInv(s)
    ensures KeysInv(s'.redis)
  {
    hide GoRecover, GoOwn, Fail1, Cancel1, LockKey, DeliveredTo, Monotone, DataStreamName;
    StepMonotone(cfg, s, e, s');
    forall name, id | LockKey(name, id) in s'.redis.locks
      ensures DeliveredTo(s'.redis, id, s'.redis.locks[LockKey(name, id)].owner)
    {
      var key := LockKey(name, id);
      if !(key in s.redis.locks && s'.redis.locks[key] == s.redis.locks[key]) {
        assert e.Act?;
        FailLeavesRedis(s, e.p);
        var Go(newId, child) := e.choice;
        RecoverLeavesLocks(cfg, s, e.p, newId);
        var n, i := OwnSetsKey(cfg, s, e.p, newId, child, key);
        LockKeyInjective(name, id, n, i);
        assert DeliveredTo(s.redis, id, s.procs[e.p].client);
      }
      DeliveredToStays(s.redis, s'.redis, id, s'.redis.locks[key].owner);
    }
  }

  /** A reader or extender past its delivery goes on with the same work, and starts an extender only for it. */
  lemma OwnSuccessor(cfg: Config, s: State, p: ProcId, newId: Id, child: ProcId, q: ProcId)
    requires p in s.procs && CanGo(s, p, newId, child) && OwnWork(s.redis, s.procs[p].client, s.procs[p].phase)
    requires !s.procs[p].phase.ReaderIdle? && !s.procs[p].phase.ScanIdle? && !Recovering(s.procs[p].phase)
    requires q in GoOwn(cfg, s, p, newId, child).procs && (q == p || q !in s.procs)
    ensures var pr := GoOwn(cfg, s, p, newId, child).procs[q]; OwnWork(s.redis, pr.client, pr.phase)
  {
    hide LockKey, DataStreamName, Exists, CanExtend, DeliveredTo, SetNX, Extend, Unlock, XAck, XDel, LocalsOf;
  }

  lemma ReaderSuccessor(cfg: Config, s: State, p: ProcId, newId: Id, child: ProcId, q: ProcId)
    requires p in s.procs && CanGo(s, p, newId, child) && s.procs[p].phase.ReaderIdle?
    requires q in GoOwn(cfg, s, p, newId, child).procs && (q == p || q !in s.procs)
    ensures var s' := GoOwn(cfg, s, p, newId, child); OwnWork(s'.redis, s'.procs[q].client, s'.procs[q].phase)
  {
    hide Deliver, Batch, XReadGroup, DeliveredTo;
    BatchIsOwn(s.redis, s.procs[p].client, newId);
  }

  /** A reader or extender that acts goes on with its own work. */
  lemma OwnNext(cfg: Config, s: State, p: ProcId, newId: Id, child: ProcId, q: ProcId)
    requires p in s.procs && CanGo(s, p, newId, child) && OwnWork(s.redis, s.procs[p].client, s.procs[p].phase)
    requires !s.procs[p].phase.ScanIdle? && !Recovering(s.procs[p].phase)
    requires Monotone(s.redis, GoOwn(cfg, s, p, newId, child).redis)
    requires q in GoOwn(cfg, s, p, newId, child).procs && (q == p || q !in s.procs)
    ensures var s' := GoOwn(cfg, s, p, newId, child); OwnWork(s'.redis, s'.procs[q].client, s'.procs[q].phase)
  {
    hide GoOwn, OwnWork, Monotone;
    if s.procs[p].phase.ReaderIdle? {
      ReaderSuccessor(cfg, s, p, newId, child, q);
    } else {
      OwnSuccessor(cfg, s, p, newId, child, q);
      var s' := GoOwn(cfg, s, p, newId, child);
      OwnWorkStays(s.redis, s'.redis, s'.procs[q].client, s'.procs[q].phase);
    }
  }

  lemma BatchIsOwn(r: Server, c: ClientId, upTo: Id)
    requires r.cursor <= upTo
    ensures forall m :: m in Batch(r, upTo) ==> DeliveredTo(XReadGroup(r, c, upTo), m.id, c)
  {
  }

  lemma OwnWorkStep(cfg: Config, s: State, e: Event, s': State, q: ProcId)
    requires Step(cfg, s, e, s') && OwnerInv(s) && q in s'.procs
    requires Inv(cfg, s)
    ensures OwnWork(s'.redis, s'.procs[q].client, s'.procs[q].phase)
  {
    hide GoRecover, GoOwn, Fail1, Cancel1, Inv, KeysInv, Monotone, DeliveredTo;
    StepMonotone(cfg, s, e, s');
    if e.Act? && (e.p == q || q !in s.procs) {
      ActorWork(cfg, s, e, s', q);
    } else {
      Bystander(cfg, s, e, s', q);
      if q in s.procs {
        OwnWorkStays(s.redis, s'.redis, s.procs[q].client, s.procs[q].phase);
      }
    }
  }

  lemma RecoverOwnWork(cfg: Config, s: State, p: ProcId, newId: Id)
    requires p in s.procs && (s.procs[p].phase.Add? ==> s.redis.lastId < newId)
    requires s.procs[p].phase.ScanIdle? || Recovering(s.procs[p].phase)
    ensures var s' := GoRecover(cfg, s, p, newId);
            p in s'.procs && OwnWork(s'.redis, s'.procs[p].client, s'.procs[p].phase)
  {
    hide GoRecover, XPending, DataStreamName, Exists, LockKey, RetryCount, NextRetry;
    RecoverPhase(cfg, s, p, newId);
  }

  lemma FailOwnWork(s: State, p: ProcId)
    requires p in s.procs && OwnWork(s.redis, s.procs[p].client, s.procs[p].phase)
    ensures p in Fail1(s, p).procs && p in Cancel1(s, p).procs
    ensures OwnWork(s.redis, Fail1(s, p).procs[p].client, Fail1(s, p).procs[p].phase)
    ensures OwnWork(s.redis, Cancel1(s, p).procs[p].client, Cancel1(s, p).procs[p].phase)
  {
    hide DeliveredTo;
  }

  lemma ActorWork(cfg: Config, s: State, e: Event, s': State, q: ProcId)
    requires Step(cfg, s, e, s') && OwnerInv(s) && e.Act? && q in s'.procs && (e.p == q || q !in s.procs)
    requires Monotone(s.redis, s'.redis)
    ensures OwnWork(s'.redis, s'.procs[q].client, s'.procs[q].phase)
  {
    hide GoRecover, GoOwn, Fail1, Cancel1, KeysInv, Monotone, DeliveredTo, OwnWork, CanGo;
    FailLeavesRedis(s, e.p);
    FailOwnWork(s, e.p);
    match e.choice
    case Go(newId, child) =>
      if s.procs[e.p].phase.ScanIdle? || Recovering(s.procs[e.p].phase) {
        AddNeedsId(s, e.p, newId, child);
        RecoverOwnWork(cfg, s, e.p, newId);
        if q != e.p {
          RecoverBystander(cfg, s, e.p, newId, q);
        }
      } else {
        OwnNext(cfg, s, e.p, newId, child, q);
      }
    case _ =>
      if q != e.p {
        FailBystander(s, e.p, q);
      }
  }

  lemma AddNeedsId(s: State, p: ProcId, newId: Id, child: ProcId)
    requires p in s.procs && CanGo(s, p, newId, child)
    ensures s.procs[p].phase.Add? ==> s.redis.lastId < newId
  {
  }

  /** Whoever holds the key of a pending entry is the consumer it was delivered to, at every point of every run. */
  lemma {:induction false} RunOwnerInv(cfg: Config, tr: seq<State>, es: seq<Event>, k: nat)
    requires ValidConfig(cfg) && Run(cfg, tr, es) && k <= |es|
    ensures OwnerInv(tr[k])
  {
    hide Step, Inv, KeysInv, OwnWork;
    if k == 0 {
      assert KeysInv(tr[0].redis) by { NoKeys(tr[0].redis); }
    } else {
      RunOwnerInv(cfg, tr, es, k - 1);
      StepAt(cfg, tr, es, k - 1);
      RunInv(cfg, tr, es, k - 1);
      KeysStep(cfg, tr[k - 1], es[k - 1], tr[k]);
      forall q | q in tr[k].procs ensures OwnWork(tr[k].redis, tr[k].procs[q].client, tr[k].procs[q].phase) {
        OwnWorkStep(cfg, tr[k - 1], es[k - 1], tr[k], q);
      }
    }
  }

  lemma NoKeys(r: Server)
    requires r.locks == map[]
    ensures KeysInv(r)
  {
  }

  /** The key of a pending entry belongs to the consumer the entry was delivered to. */
  lemma KeyOwner(cfg: Config, tr: seq<State>, es: seq<Event>, k: nat, id: Id, name: string)
    requires ValidConfig(cfg) && Run(cfg, tr, es) && k <= |es|
    requires id in tr[k].redis.pel && LockKey(name, id) in tr[k].redis.locks
    ensures tr[k].redis.locks[LockKey(name, id)].owner == tr[k].redis.pel[id].consumer
  {
    hide Step, Init, LockKey;
    RunOwnerInv(cfg, tr, es, k);
    assert KeysInv(tr[k].redis);
  }

  // ---- When an extender stops ----

  /** An extender that has not decided to extend. */
  predicate NotExtending(ph: Phase, name: string) {
    (ph.ExtCheck? && ph.name == name) || (ph.ExtExit? && ph.name == name) || ph.Ended?
  }

  lemma StopsStep(cfg: Config, s: State, e: Event, s': State, p: ProcId, name: string)
    requires Step(cfg, s, e, s') && p in s.procs && NotExtending(s.procs[p].phase, name)
    requires name !in LocalsOf(s, s.procs[p].client)
    ensures p in s'.procs && s'.procs[p].client == s.procs[p].client && NotExtending(s'.procs[p].phase, name)
  {
    hide GoRecover;
    if !e.Act? || e.p != p {
      ProcsStay(cfg, s, e, s', p);
      Bystander(cfg, s, e, s', p);
    }
  }

  lemma ProcsStay(cfg: Config, s: State, e: Event, s': State, p: ProcId)
    requires Step(cfg, s, e, s') && p in s.procs
    ensures p in s'.procs
  {
    hide Finish, RequeueFields, DeadFields, DataStreamName, LockKey, Exists, XPending, AfterRead, AfterCheck, NextInPage,
         Batch, RetryCount, Deliver, Requeued, XReadGroup, XAdd, XAck, XDel;
  }

  /** Once its client has no stream of the name, an extender that looks for it never extends again. */
  lemma {:induction false} ExtenderStops(cfg: Config, tr: seq<State>, es: seq<Event>, i: nat, k: nat, p: ProcId,
                                         name: string)
    requires Run(cfg, tr, es) && i <= k <= |es| && p in tr[i].procs && NotExtending(tr[i].procs[p].phase, name)
    requires forall m :: i <= m <= k ==> name !in LocalsOf(tr[m], tr[i].procs[p].client)
    ensures p in tr[k].procs && tr[k].procs[p].client == tr[i].procs[p].client
    ensures NotExtending(tr[k].procs[p].phase, name)
    decreases k
  {
    hide Init, Step, LocalsOf, NotExtending;
    if i < k {
      ExtenderStops(cfg, tr, es, i, k - 1, p, name);
      StepAt(cfg, tr, es, k - 1);
      StopsStep(cfg, tr[k - 1], es[k - 1], tr[k], p, name);
    }
  }

  // ---- Beats ----

  /** Event `k` is a successful round trip of the Lock or of an Extend for the entry. */
  ghost predicate Beat(cfg: Config, tr: seq<State>, es: seq<Event>, k: nat, id: Id, name: string)
    requires k < |es| && k < |tr|
  {
    && es[k].Act? && es[k].choice.Go? && es[k].p in tr[k].procs && MaySet(cfg, tr[k].procs[es[k].p].phase, name, id)
    && id in tr[k].redis.pel
  }

  /** A beat cannot be refused while the entry is pending: the Lock unless the key is there already, an Extend
      never. Afterwards the key has a whole heartbeat interval to live. */
  lemma BeatRenews(cfg: Config, tr: seq<State>, es: seq<Event>, k: nat, id: Id, name: string)
    requires ValidConfig(cfg) && Run(cfg, tr, es) && k < |es| && Beat(cfg, tr, es, k, id, name)
    requires tr[k].procs[es[k].p].phase.Locking? ==> !Exists(tr[k].redis, LockKey(name, id))
    ensures Renewed(cfg, tr[k + 1].redis, LockKey(name, id)) && id in tr[k + 1].redis.pel
    ensures tr[k + 1].redis.now == tr[k].redis.now
  {
    hide Init, LockKey, DataStreamName;
    StepAt(cfg, tr, es, k);
    RunOwnerInv(cfg, tr, es, k);
    var s, p := tr[k], es[k].p;
    assert KeysInv(s.redis);
    assert OwnWork(s.redis, s.procs[p].client, s.procs[p].phase);
  }

  /** The events at `beats` renew the key, the first as Lock; successive ones are less than hbInterval apart. */
  ghost predicate Rhythm(cfg: Config, tr: seq<State>, es: seq<Event>, beats: seq<nat>, id: Id, name: string) {
    && Run(cfg, tr, es) && beats != []
    && (forall i :: 0 <= i < |beats| ==> beats[i] < |es|)
    && (forall i :: 0 <= i < |beats| ==> Beat(cfg, tr, es, beats[i], id, name))
    && !Exists(tr[beats[0]].redis, LockKey(name, id))
    && (forall i :: 0 < i < |beats| ==> beats[i - 1] < beats[i])
    && (forall i :: 0 < i < |beats| ==> tr[beats[i]].procs[es[beats[i]].p].phase.ExtExtend?)
    && (forall i :: 0 < i < |beats| ==> tr[beats[i]].redis.now < tr[beats[i - 1]].redis.now + cfg.hbInterval)
  }

  lemma BeatAt(cfg: Config, tr: seq<State>, es: seq<Event>, beats: seq<nat>, id: Id, name: string, i: nat)
    requires ValidConfig(cfg) && Rhythm(cfg, tr, es, beats, id, name) && i < |beats|
    ensures beats[i] < |es| && Renewed(cfg, tr[beats[i] + 1].redis, LockKey(name, id)) && id in tr[beats[i] + 1].redis.pel
    ensures tr[beats[i] + 1].redis.now == tr[beats[i]].redis.now
  {
    hide Init, Step, LockKey, Renewed, MaySet, Exists;
    assert Beat(cfg, tr, es, beats[i], id, name);
    BeatRenews(cfg, tr, es, beats[i], id, name);
  }

  /** The last beat before a position. */
  lemma {:induction false} LastBeat(beats: seq<nat>, m: nat) returns (i: nat)
    requires beats != [] && beats[0] < m
    ensures i < |beats| && beats[i] < m && (i + 1 < |beats| ==> m <= beats[i + 1])
    decreases |beats|
  {
    var k := |beats| - 1;
    if beats[k] < m {
      i := k;
    } else {
      i := LastBeat(beats[..k], m);
    }
  }

  /** Between two beats, and for less than an interval after the last, the key was renewed recently. */
  lemma RhythmCovers(cfg: Config, tr: seq<State>, es: seq<Event>, beats: seq<nat>, id: Id, name: string, m: nat)
    requires ValidConfig(cfg) && Rhythm(cfg, tr, es, beats, id, name) && m <= |es| && beats[0] < m
    requires tr[m].redis.now < tr[beats[|beats| - 1]].redis.now + cfg.hbInterval
    ensures RecentlyRenewed(cfg, tr, m, id, name)
  {
    hide LockKey, Renewed, Beat, Init, Step, Exists;
    var i := LastBeat(beats, m);
    BeatAt(cfg, tr, es, beats, id, name, i);
    if i + 1 < |beats| {
      TimeGrows(cfg, tr, es, m, beats[i + 1]);
      assert tr[beats[i + 1]].redis.now < tr[beats[i + 1 - 1]].redis.now + cfg.hbInterval;
    }
    assert Renewed(cfg, tr[beats[i] + 1].redis, LockKey(name, id));
  }

  /**
   The heartbeat bound: the first Extend less than hbInterval after the Lock, every later turn at most `d`
   longer than its sleep of hbInterval/2, `d` under hbInterval/2. Then the key is there at every instant from
   the Lock to `k`, and if an Extend has happened at least hbInterval/2 - d of its life remains at `k`.
   */
  lemma HeartbeatBound(cfg: Config, tr: seq<State>, es: seq<Event>, beats: seq<nat>, id: Id, name: string, k: nat, d: nat)
    requires ValidConfig(cfg) && Rhythm(cfg, tr, es, beats, id, name) && d < cfg.hbInterval / 2
    requires beats[|beats| - 1] < k <= |es| && id in tr[k].redis.pel
    requires forall i :: 1 < i < |beats| ==>
      tr[beats[i]].redis.now <= tr[beats[i - 1]].redis.now + cfg.hbInterval / 2 + d
    requires if |beats| == 1 then tr[k].redis.now < tr[beats[0]].redis.now + cfg.hbInterval
             else tr[k].redis.now <= tr[beats[|beats| - 1]].redis.now + cfg.hbInterval / 2 + d
    ensures forall m :: beats[0] < m <= k ==> Exists(tr[m].redis, LockKey(name, id))
    ensures |beats| > 1 ==> LivesUntil(tr[k].redis, LockKey(name, id), tr[k].redis.now + cfg.hbInterval / 2 - d)
  {
    hide LockKey, Beat, Init, Step, Exists, LivesUntil, RecentlyRenewed, Rhythm;
    RhythmIsRun(cfg, tr, es, beats, id, name);
    BeatAt(cfg, tr, es, beats, id, name, 0);
    PendingIsDelivered(cfg, tr, es, beats[0] + 1, id);
    forall m | beats[0] < m <= k ensures Exists(tr[m].redis, LockKey(name, id)) {
      TimeGrows(cfg, tr, es, m, k);
      PendingThroughout(cfg, tr, es, beats[0] + 1, m, k, id);
      RhythmCovers(cfg, tr, es, beats, id, name, m);
      RenewedIsPresent(cfg, tr, es, m, id, name);
    }
    var last := beats[|beats| - 1];
    BeatAt(cfg, tr, es, beats, id, name, |beats| - 1);
    KeyOutlives(cfg, tr, es, last + 1, k, id, name, tr[last].redis.now + cfg.hbInterval);
    if |beats| > 1 {
      LivesLess(tr[k].redis, LockKey(name, id), tr[last].redis.now + cfg.hbInterval,
                tr[k].redis.now + cfg.hbInterval / 2 - d);
    }
  }

  lemma LivesLess(r: Server, key: string, until: nat, sooner: nat)
    requires LivesUntil(r, key, until) && sooner <= until
    ensures LivesUntil(r, key, sooner)
  {
  }

  lemma RhythmIsRun(cfg: Config, tr: seq<State>, es: seq<Event>, beats: seq<nat>, id: Id, name: string)
    requires Rhythm(cfg, tr, es, beats, id, name)
    ensures Run(cfg, tr, es) && beats != [] && beats[0] <= beats[|beats| - 1]
  {
    hide Run, Beat, LockKey;
    Ascends(beats, |beats| - 1);
  }

  lemma {:induction false} Ascends(beats: seq<nat>, i: nat)
    requires i < |beats| && forall j :: 0 < j < |beats| ==> beats[j - 1] < beats[j]
    ensures beats[0] <= beats[i]
  {
    if i > 0 {
      Ascends(beats, i - 1);
      assert beats[i - 1] < beats[i];
    }
  }

  /** Before the Lock the entry is not exposed, if the Lock came within MinIdleTime of the delivery. */
  lemma NotExposedBefore(cfg: Config, tr: seq<State>, es: seq<Event>, m: nat, k: nat, id: Id)
    requires ValidConfig(cfg) && Run(cfg, tr, es) && m <= k <= |es| && id in tr[k].redis.pel
    requires tr[k].redis.now < tr[k].redis.pel[id].at + cfg.minIdle
    ensures !Exposed(cfg, tr[m], id)
  {
    hide Init, Step, Inv;
    TimeGrows(cfg, tr, es, m, k);
    if id in tr[m].redis.pel {
      PendingIsDelivered(cfg, tr, es, m, id);
      PendingThroughout(cfg, tr, es, m, m, k, id);
    }
  }

  /**
   A slow but live owner is never disturbed: it locked its entry within MinIdleTime of the delivery and its
   heartbeat has kept up until `k`. Whatever scan acts at `k`, it does not take the entry.
   */
  lemma LiveOwnerUndisturbed(cfg: Config, tr: seq<State>, es: seq<Event>, beats: seq<nat>, id: Id, name: string, k: nat)
    requires ValidConfig(cfg) && Rhythm(cfg, tr, es, beats, id, name) && k < |es| && NameOf(cfg, tr[k], id, name)
    requires tr[beats[0]].redis.now < tr[beats[0]].redis.pel[id].at + cfg.minIdle
    requires tr[k].redis.now < tr[beats[|beats| - 1]].redis.now + cfg.hbInterval
    ensures Takes(tr, k, id) ==> !ByRecovery(tr, es, k, true)
  {
    hide LockKey, MaySet, Init, Step, Exists, RecentlyRenewed, NameOf, Takes, ByRecovery, Exposed;
    forall m | 0 <= m <= k && Exposed(cfg, tr[m], id) ensures RecentlyRenewed(cfg, tr, m, id, name) {
      TimeGrows(cfg, tr, es, m, k);
      assert Beat(cfg, tr, es, beats[0], id, name);
      if m <= beats[0] {
        NotExposedBefore(cfg, tr, es, m, beats[0], id);
      } else {
        RhythmCovers(cfg, tr, es, beats, id, name, m);
      }
    }
    HeartbeatProtects(cfg, tr, es, k, id, name);
  }
}

/**
 What a recovery reports is what happened: a dead letter is written whenever there
 is a stream for it, and a `Claim` that has written its copy or letter succeeds.
 */
module Outcomes {
  import opened Decimal
  import opened Entry
  import opened Redis
  import opened MutexKey
  import opened Protocol
  import opened Invariant
  import opened Guarantees
  import opened Witness
  import opened Runs

  // ---- Dropped or dead-lettered ----

  ghost predicate RouteInv(cfg: Config, s: State) {
    && (forall id :: id in s.ledger.book && s.ledger.book[id].status.Dropped? ==> cfg.dlqStream == "")
    && (forall id :: id in s.ledger.book && s.ledger.book[id].status.InDlq? ==> cfg.dlqStream != "")
    && (forall p :: p in s.procs && s.procs[p].phase.AddDead? ==> cfg.dlqStream != "")
  }

  /** The status of an id is as before, or one that fits the configuration. */
  lemma RouteStatus(cfg: Config, s: State, e: Event, id: Id)
    requires Enabled(s, e) && RouteInv(cfg, s) && id in Apply(cfg, s, e).ledger.book
    ensures var status := Apply(cfg, s, e).ledger.book[id].status;
            (status.Dropped? ==> cfg.dlqStream == "") && (status.InDlq? ==> cfg.dlqStream != "")
  {
    hide GoRecover, GoOwn, Fail1, Cancel1;
    if e.Act? {
      match e.choice
      case Go(newId, child) =>
        if s.procs[e.p].phase.ScanIdle? || Recovering(s.procs[e.p].phase) {
          RecoverStatus(cfg, s, e.p, newId, id);
        } else {
          OwnStatus(cfg, s, e.p, newId, child, id);
        }
      case Fail => FailStatus(s, e.p, id);
      case Cancel => CancelLedger(s, e.p);
    }
  }

  lemma NextAddsDead(cfg: Config, r: Server, ph: Phase)
    requires (Recovering(ph) || ph.ScanIdle?) && NextPhase(cfg, r, ph).AddDead?
    ensures cfg.dlqStream != ""
  {
    hide DataStreamName, LockKey, Exists, RetryCount, NextRetry, XPending;
  }

  lemma RoutePhase(cfg: Config, s: State, e: Event, p: ProcId)
    requires Enabled(s, e) && RouteInv(cfg, s) && p in Apply(cfg, s, e).procs && Apply(cfg, s, e).procs[p].phase.AddDead?
    ensures cfg.dlqStream != ""
  {
    hide Go1, Fail1, Cancel1, NextPhase, CanGo;
    if e.Act? && e.p == p {
      FailPhase(s, p);
      if e.choice.Go? {
        GoPhase(cfg, s, p, e.choice.newId, e.choice.child);
        if Recovering(s.procs[p].phase) || s.procs[p].phase.ScanIdle? {
          NextAddsDead(cfg, s.redis, s.procs[p].phase);
        }
      }
    } else {
      Bystander(cfg, s, e, Apply(cfg, s, e), p);
    }
  }

  lemma {:induction false} RunRoute(cfg: Config, tr: seq<State>, es: seq<Event>, k: nat)
    requires Run(cfg, tr, es) && k <= |es|
    ensures RouteInv(cfg, tr[k])
  {
    hide Apply, Enabled;
    if k > 0 {
      RunRoute(cfg, tr, es, k - 1);
      StepAt(cfg, tr, es, k - 1);
      var s, e := tr[k - 1], es[k - 1];
      forall id | id in tr[k].ledger.book
        ensures tr[k].ledger.book[id].status.Dropped? ==> cfg.dlqStream == ""
        ensures tr[k].ledger.book[id].status.InDlq? ==> cfg.dlqStream != ""
      {
        RouteStatus(cfg, s, e, id);
      }
      forall p | p in tr[k].procs && tr[k].procs[p].phase.AddDead? ensures cfg.dlqStream != "" {
        RoutePhase(cfg, s, e, p);
      }
    }
  }

  /** In every reachable state: tasks are dropped only without a dead-letter stream, dead-lettered only with one. */
  lemma DroppedOrBuried(cfg: Config, s: State, id: Id)
    requires Reachable(cfg, s) && id in s.ledger.book
    ensures s.ledger.book[id].status.Dropped? ==> cfg.dlqStream == ""
    ensures s.ledger.book[id].status.InDlq? ==> cfg.dlqStream != ""
  {
    hide Init, Step;
    var tr, es :| Run(cfg, tr, es) && tr[|es|] == s;
    RunRoute(cfg, tr, es, |es|);
  }

  /** The letter of `id` is in the dead-letter stream. */
  ghost predicate LetterWritten(cfg: Config, s: State, id: Id) {
    && id in s.ledger.book && s.ledger.book[id].status.InDlq? && s.ledger.book[id].status.at < |s.redis.dlq|
    && var f := s.ledger.book[id].fields;
       IsLetter(s.redis.dlq[s.ledger.book[id].status.at], f, DeadCount(cfg, f), DeadReason(cfg, f))
  }

  /**
   A `Claim` that reports a dead-lettering without error has taken the id itself, and the letter is in the
   dead-letter stream exactly when there is one; otherwise the task is dropped.
   */
  lemma DlqOutcome(cfg: Config, s: State, p: ProcId, id: Id)
    requires ValidConfig(cfg) && Reachable(cfg, s) && p in s.procs && s.procs[p].phase == Returned(id, RqDlq, false)
    ensures WonBy(s.ledger, id, p)
    ensures LetterWritten(cfg, s, id) <==> cfg.dlqStream != ""
    ensures s.ledger.book[id].status.Dropped? <==> cfg.dlqStream == ""
  {
    hide Reachable, IsLetter, DataStreamName, RetryCount, DeadFields;
    ReachableInv(cfg, s);
    hide RedisInv, HeldInv, LocalsInv, BookInv;
    assert ProcOk(cfg, s.ledger, s.redis.lastId, p, s.procs[p].phase);
    DroppedOrBuried(cfg, s, id);
    var f, status := s.ledger.book[id].fields, s.ledger.book[id].status;
    if status.InDlq? {
      assert LetterOk(cfg, s.ledger, s.redis.dlq[status.at], s.ledger.deadFrom[status.at], status.at);
      DeadIsLetter(f, DeadCount(cfg, f), DeadReason(cfg, f));
    }
  }

  /**
   Every dead letter: of an entry whose name does not parse it holds the entry's own counter and says unparseable,
   of any other the counter after the last retry, which is above the limit. It is the only letter of its id.
   */
  lemma DeadLetterSays(cfg: Config, s: State, i: nat)
    requires ValidConfig(cfg) && cfg.maxRetries < MAX_INT && Reachable(cfg, s) && i < |s.redis.dlq|
    ensures |s.ledger.deadFrom| == |s.redis.dlq| && s.ledger.deadFrom[i] in s.ledger.book
    ensures var f := s.ledger.book[s.ledger.deadFrom[i]].fields;
            if DataStreamName(cfg.parse, f).Err? then IsLetter(s.redis.dlq[i], f, RetryCount(f), REASON_UNPARSEABLE)
            else RetryCount(f) >= cfg.maxRetries && IsLetter(s.redis.dlq[i], f, RetryCount(f) + 1, REASON_MAX_RETRIES)
    ensures forall j :: 0 <= j < |s.redis.dlq| && s.ledger.deadFrom[j] == s.ledger.deadFrom[i] ==> j == i
  {
    hide Reachable, IsLetter, DataStreamName, RetryCount, DeadFields;
    ReachableInv(cfg, s);
    hide RedisInv, HeldInv, LocalsInv, BookInv, ProcsInv;
    assert LetterOk(cfg, s.ledger, s.redis.dlq[i], s.ledger.deadFrom[i], i);
    var f := s.ledger.book[s.ledger.deadFrom[i]].fields;
    DeadIsLetter(f, DeadCount(cfg, f), DeadReason(cfg, f));
    forall j | 0 <= j < |s.redis.dlq| && s.ledger.deadFrom[j] == s.ledger.deadFrom[i] ensures j == i {
      assert LetterOk(cfg, s.ledger, s.redis.dlq[j], s.ledger.deadFrom[j], j);
    }
  }

  // ---- Success of a claim ----

  /** A `Claim` that has written its copy or its letter succeeds, whatever becomes of its XDEL. */
  lemma ClaimSucceeds(cfg: Config, s: State, p: ProcId, choice: Choice)
    requires ValidConfig(cfg) && Reachable(cfg, s) && p in s.procs && Enabled(s, Act(p, choice))
    requires s.procs[p].phase.Del? && s.procs[p].phase.via.Claim?
    ensures p in Apply(cfg, s, Act(p, choice)).procs
    ensures var ph, ph' := s.procs[p].phase, Apply(cfg, s, Act(p, choice)).procs[p].phase;
            if choice.Cancel? then ph' == ph else ClaimedOk(ph', ph.id)
  {
    hide Reachable;
    ReachableInv(cfg, s);
    hide RedisInv, HeldInv, LocalsInv, BookInv, DeadInv, XDel;
    assert ProcOk(cfg, s.ledger, s.redis.lastId, p, s.procs[p].phase);
  }
}

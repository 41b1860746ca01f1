/**
 The branch of a recovery that finds its entry gone and acknowledges the id all
 the same: it throws no task away, as long as nobody claims an id that Redis has
 not generated yet.
 */
module EntryGone {
  import opened MutexKey
  import opened Entry
  import opened Redis
  import opened Protocol
  import opened Invariant
  import opened Preservation
  import opened Witness
  import opened Runs
  import opened Continuations

  /** Every `Claim` names an id that Redis has generated. */
  ghost predicate ClaimsIssued(tr: seq<State>, es: seq<Event>)
    requires |tr| == |es| + 1
  {
    forall k :: 0 <= k < |es| && es[k].StartClaim? ==> es[k].id <= tr[k].redis.lastId
  }

  ghost predicate AllIssued(s: State) {
    forall p :: p in s.procs && Recovering(s.procs[p].phase) ==> Issued(s.procs[p].phase.via)
  }

  lemma ViaKept(cfg: Config, s: State, e: Event, s': State, p: ProcId)
    requires Step(cfg, s, e, s') && AllIssued(s) && p in s'.procs && Recovering(s'.procs[p].phase)
    requires e.StartClaim? ==> e.id <= s.redis.lastId
    ensures Issued(s'.procs[p].phase.via)
  {
    hide GoRecover, GoOwn, Fail1, Cancel1, CanGo, DataStreamName, RetryCount, XPending, Exists, LockKey;
    if e.Act? && e.p == p {
      FailPhase(s, p);
      if e.choice.Go? {
        GoPhase(cfg, s, p, e.choice.newId, e.choice.child);
      }
    } else {
      Bystander(cfg, s, e, s', p);
    }
  }

  lemma DiscardStep(cfg: Config, s: State, e: Event, s': State, id: Id)
    requires Step(cfg, s, e, s') && Inv(cfg, s) && AllIssued(s)
    requires id in s'.ledger.book && s'.ledger.book[id].status.Discarded?
    ensures id in s.ledger.book && s.ledger.book[id].status.Discarded?
  {
    hide GoRecover, GoOwn, Fail1, Cancel1, BookInv, DeadInv, LocalsInv, HeldInv;
    if e.Act? {
      match e.choice
      case Go(newId, child) =>
        if s.procs[e.p].phase.ScanIdle? || Recovering(s.procs[e.p].phase) {
          RecoverStatus(cfg, s, e.p, newId, id);
          assert ProcOk(cfg, s.ledger, s.redis.lastId, e.p, s.procs[e.p].phase);
        } else {
          OwnStatus(cfg, s, e.p, newId, child, id);
        }
      case Fail => FailStatus(s, e.p, id);
      case Cancel => CancelLedger(s, e.p);
    }
  }

  /** With every `Claim` on a generated id, the "entry gone" branch never throws a task away. */
  lemma {:induction false} NothingDiscarded(cfg: Config, tr: seq<State>, es: seq<Event>, k: nat)
    requires ValidConfig(cfg) && Run(cfg, tr, es) && ClaimsIssued(tr, es) && k <= |es|
    ensures AllIssued(tr[k])
    ensures forall id :: id in tr[k].ledger.book ==> !tr[k].ledger.book[id].status.Discarded?
    decreases k
  {
    hide Step, Inv, ClaimsIssued;
    if k > 0 {
      NothingDiscarded(cfg, tr, es, k - 1);
      StepAt(cfg, tr, es, k - 1);
      RunInv(cfg, tr, es, k - 1);
      ClaimAt(tr, es, k - 1);
      forall p | p in tr[k].procs && Recovering(tr[k].procs[p].phase) ensures Issued(tr[k].procs[p].phase.via) {
        ViaKept(cfg, tr[k - 1], es[k - 1], tr[k], p);
      }
      forall id | id in tr[k].ledger.book ensures !tr[k].ledger.book[id].status.Discarded? {
        if tr[k].ledger.book[id].status.Discarded? {
          DiscardStep(cfg, tr[k - 1], es[k - 1], tr[k], id);
        }
      }
    }
  }

  lemma ClaimAt(tr: seq<State>, es: seq<Event>, k: nat)
    requires |tr| == |es| + 1 && ClaimsIssued(tr, es) && k < |es|
    ensures es[k].StartClaim? ==> es[k].id <= tr[k].redis.lastId
  {
  }

  // ---- The exact condition ----

  ghost predicate NoneDiscarded(s: State) {
    forall id :: id in s.ledger.book ==> !s.ledger.book[id].status.Discarded?
  }

  /** Reached by a run whose `Claim` calls all named generated ids. */
  ghost predicate GoodHistory(cfg: Config, s: State) {
    exists tr, es :: Run(cfg, tr, es) && ClaimsIssued(tr, es) && tr[|es|] == s
  }

  /** The events can happen after `s`, and their `Claim` calls name ids generated by then. */
  ghost predicate IssuedAlong(cfg: Config, s: State, es: seq<Event>)
    decreases |es|
  {
    es != [] ==>
      && Enabled(s, es[0])
      && (es[0].StartClaim? ==> es[0].id <= s.redis.lastId)
      && IssuedAlong(cfg, Apply(cfg, s, es[0]), es[1..])
  }

  /** Whatever follows `e`, as long as later `Claim` calls name generated ids, no task is discarded. */
  ghost predicate KeepsTasks(cfg: Config, s: State, e: Event)
    requires Enabled(s, e)
  {
    forall es, s' ::
      Leads(cfg, Apply(cfg, s, e), es, s') && IssuedAlong(cfg, Apply(cfg, s, e), es) ==> NoneDiscarded(s')
  }

  lemma GoodHistoryMeans(cfg: Config, s: State)
    requires ValidConfig(cfg) && GoodHistory(cfg, s)
    ensures Inv(cfg, s) && AllIssued(s) && NoneDiscarded(s)
  {
    hide Inv, Step, Init, AllIssued;
    var tr, es :| Run(cfg, tr, es) && ClaimsIssued(tr, es) && tr[|es|] == s;
    RunInv(cfg, tr, es, |es|);
    NothingDiscarded(cfg, tr, es, |es|);
  }

  lemma GoodStep(cfg: Config, s: State, e: Event)
    requires ValidConfig(cfg) && Inv(cfg, s) && AllIssued(s) && NoneDiscarded(s)
    requires Enabled(s, e) && (e.StartClaim? ==> e.id <= s.redis.lastId)
    ensures var s' := Apply(cfg, s, e); Inv(cfg, s') && AllIssued(s') && NoneDiscarded(s')
  {
    hide Inv, Apply, Enabled;
    var s' := Apply(cfg, s, e);
    StepKeeps(cfg, s, e, s');
    forall p | p in s'.procs && Recovering(s'.procs[p].phase) ensures Issued(s'.procs[p].phase.via) {
      ViaKept(cfg, s, e, s', p);
    }
    forall id | id in s'.ledger.book ensures !s'.ledger.book[id].status.Discarded? {
      if s'.ledger.book[id].status.Discarded? {
        DiscardStep(cfg, s, e, s', id);
      }
    }
  }

  lemma {:induction false} GoodLeads(cfg: Config, s: State, es: seq<Event>, s': State)
    requires ValidConfig(cfg) && Inv(cfg, s) && AllIssued(s) && NoneDiscarded(s)
    requires Leads(cfg, s, es, s') && IssuedAlong(cfg, s, es)
    ensures NoneDiscarded(s')
    decreases |es|
  {
    hide Inv, Apply, Enabled, AllIssued, NoneDiscarded;
    if es != [] {
      GoodStep(cfg, s, es[0]);
      GoodLeads(cfg, Apply(cfg, s, es[0]), es[1..], s');
    }
  }

  /** A stray claim has found nothing and is about to acknowledge; no id has been generated meanwhile. */
  lemma StrayReads(cfg: Config, s: State, p: ProcId, c: ClientId, id: Id)
    requires RedisInv(s) && p !in s.procs && s.redis.lastId < id
    ensures var s1 := Apply(cfg, s, StartClaim(p, c, id)); var e := Act(p, Go(0, 0));
            && Enabled(s1, e)
            && Apply(cfg, s1, e) == s.(procs := s.procs[p := Proc(c, Clear(id, Claim(false)))])
  {
    hide DataStreamName, Finish;
    assert id !in s.redis.entries;
  }

  /** Then the id is produced and delivered. */
  lemma StrayMeetsTask(cfg: Config, s: State, p: ProcId, q: ProcId, c: ClientId, id: Id, f: Fields)
    returns (es: seq<Event>, s': State)
    requires RedisInv(s) && s.redis.lastId < id && p in s.procs && q !in s.procs
    ensures Leads(cfg, s, es, s') && IssuedAlong(cfg, s, es)
    ensures p in s'.procs && s'.procs[p] == s.procs[p] && id in s'.redis.pel && id in s'.ledger.book
  {
    hide Leads, Apply, Batch, Undelivered;
    var e1, e2, e3 := Produce(id, f), StartReader(q, c), Act(q, Go(id, 0));
    assert Enabled(s, e1);
    var s1 := Apply(cfg, s, e1);
    assert s1 == s.(redis := XAdd(s.redis, id, f), ledger := s1.ledger) && id in s1.ledger.book by { ProduceIs(cfg, s, id, f); }
    var s2 := Apply(cfg, s1, e2);
    assert s2 == s1.(procs := s1.procs[q := Proc(c, ReaderIdle)]) by { StartReaderIs(cfg, s1, q, c); }
    DeliverStep(cfg, s2, q, id, 0);
    s' := Apply(cfg, s2, e3);
    Stay(cfg, s);
    Then(cfg, s, [], s, e1);
    Then(cfg, s, [] + [e1], s1, e2);
    Then(cfg, s, [] + [e1] + [e2], s2, e3);
    es := [] + [e1] + [e2] + [e3];
    assert es == [e1, e2, e3] && es[1..] == [e2, e3] && es[1..][1..] == [e3] && es[1..][1..][1..] == [];
    assert IssuedAlong(cfg, s2, [e3]) by { assert [e3][1..] == []; }
    assert IssuedAlong(cfg, s1, [e2, e3]) by { assert [e2, e3][1..] == [e3]; }
  }

  lemma ProduceIs(cfg: Config, s: State, id: Id, f: Fields)
    requires s.redis.lastId < id
    ensures var s1 := Apply(cfg, s, Produce(id, f));
            s1 == s.(redis := XAdd(s.redis, id, f), ledger := s1.ledger) && id in s1.ledger.book
  {
  }

  lemma StartReaderIs(cfg: Config, s: State, q: ProcId, c: ClientId)
    requires q !in s.procs
    ensures Apply(cfg, s, StartReader(q, c)) == s.(procs := s.procs[q := Proc(c, ReaderIdle)])
  {
  }

  lemma ClearDiscards(cfg: Config, s: State, p: ProcId, id: Id, via: Via)
    requires p in s.procs && s.procs[p].phase == Clear(id, via) && id in s.redis.pel && id in s.ledger.book
    ensures Enabled(s, Act(p, Go(0, 0)))
    ensures var s' := Apply(cfg, s, Act(p, Go(0, 0))); id in s'.ledger.book && s'.ledger.book[id].status.Discarded?
  {
    hide Finish;
  }

  lemma {:induction false} IssuedChain(cfg: Config, s: State, es: seq<Event>, s1: State, fs: seq<Event>)
    requires Leads(cfg, s, es, s1) && IssuedAlong(cfg, s, es) && IssuedAlong(cfg, s1, fs)
    ensures IssuedAlong(cfg, s, es + fs)
    decreases |es|
  {
    hide Apply, Enabled;
    if es == [] {
      assert es + fs == fs;
    } else {
      IssuedChain(cfg, Apply(cfg, s, es[0]), es[1..], s1, fs);
      assert (es + fs)[1..] == es[1..] + fs;
    }
  }

  lemma IssuedOne(cfg: Config, s: State, e: Event)
    requires Enabled(s, e) && !e.StartClaim?
    ensures IssuedAlong(cfg, s, [e])
  {
    hide Apply, Enabled;
    assert [e][1..] == [];
  }

  /**
   From every reachable state, a `Claim` of any id that Redis has not generated yet can be followed, without
   another claim, by that id being produced, delivered and thrown away.
   */
  lemma StrayClaimDiscards(cfg: Config, s: State, p: ProcId, c: ClientId, id: Id, f: Fields)
    returns (es: seq<Event>, s': State)
    requires ValidConfig(cfg) && Inv(cfg, s) && p !in s.procs && s.redis.lastId < id
    ensures Leads(cfg, Apply(cfg, s, StartClaim(p, c, id)), es, s')
    ensures IssuedAlong(cfg, Apply(cfg, s, StartClaim(p, c, id)), es)
    ensures id in s'.ledger.book && s'.ledger.book[id].status.Discarded?
  {
    hide Leads, IssuedAlong, Apply, Enabled, BookInv, DeadInv, LocalsInv, HeldInv, ProcsInv;
    assert Enabled(s, StartClaim(p, c, id)) by { CanClaim(s, p, c, id); }
    var s1 := Apply(cfg, s, StartClaim(p, c, id));
    var go := Act(p, Go(0, 0));
    StrayReads(cfg, s, p, c, id);
    var s2 := Apply(cfg, s1, go);
    assert RedisInv(s2) by { RedisFrame(s, s2); }
    var q := NewProc(s2, p);
    var fs, s3 := StrayMeetsTask(cfg, s2, p, q, c, id, f);
    ClearDiscards(cfg, s3, p, id, Claim(false));
    s' := Apply(cfg, s3, go);
    One(cfg, s1, go);
    IssuedOne(cfg, s1, go);
    Chain(cfg, s1, [go], s2, fs, s3);
    IssuedChain(cfg, s1, [go], s2, fs);
    Then(cfg, s1, [go] + fs, s3, go);
    IssuedOne(cfg, s3, go);
    IssuedChain(cfg, s1, [go] + fs, s3, [go]);
    es := [go] + fs + [go];
  }

  /** A `Claim` can be followed by a discarded task exactly when its id has not been generated yet. */
  lemma ClaimKeepsTasksIff(cfg: Config, s: State, p: ProcId, c: ClientId, id: Id)
    requires ValidConfig(cfg) && GoodHistory(cfg, s) && p !in s.procs
    ensures Enabled(s, StartClaim(p, c, id))
    ensures KeepsTasks(cfg, s, StartClaim(p, c, id)) <==> id <= s.redis.lastId
  {
    hide Inv, AllIssued, Leads, IssuedAlong, Apply, GoodHistory;
    var e := StartClaim(p, c, id);
    GoodHistoryMeans(cfg, s);
    if id <= s.redis.lastId {
      GoodStep(cfg, s, e);
      forall es, s' | Leads(cfg, Apply(cfg, s, e), es, s') && IssuedAlong(cfg, Apply(cfg, s, e), es)
        ensures NoneDiscarded(s')
      {
        GoodLeads(cfg, Apply(cfg, s, e), es, s');
      }
    } else {
      var es, s' := StrayClaimDiscards(cfg, s, p, c, id, map[]);
      assert !NoneDiscarded(s');
    }
  }
}

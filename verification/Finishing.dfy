/**
 Which entries `DoneStream` can still finish. A client reaches an entry through
 the batch of its reader, then through `streamLocks` under the data stream name,
 then through a running `DoneStream`: one handle at a time, and a handle that is
 lost never comes back. A second message of the same name takes the first one's
 place in `streamLocks`.
 */
module Finishing {
  import opened MutexKey
  import opened Entry
  import opened Redis
  import opened Protocol
  import opened Invariant
  import Guarantees
  import opened Witness
  import opened Runs
  import opened Continuations

  // ---- Handles ----

  datatype Handle =
    | InBatch(p: ProcId, i: nat)               // message `i` of what a reader has left to do
    | InLocals(c: ClientId, name: string)      // the streamLocks entry of a client
    | InDone(p: ProcId)                        // a DoneStream call before its XACK

  function BatchOf(ph: Phase): seq<Message> {
    if ph.Locking? || ph.Register? then ph.batch else []
  }

  predicate ByProc(ph: Phase, h: Handle, id: Id) {
    match h
    case InBatch(_, i) => i < |BatchOf(ph)| && BatchOf(ph)[i].id == id
    case InLocals(_, _) => false
    case InDone(_) => ph.DoneAck? && ph.id == id
  }

  predicate Holds(s: State, h: Handle, id: Id) {
    if h.InLocals? then h.c in s.locals && h.name in s.locals[h.c] && s.locals[h.c][h.name] == id
    else h.p in s.procs && ByProc(s.procs[h.p].phase, h, id)
  }

  ghost predicate NoHandle(s: State, id: Id) {
    forall h :: !Holds(s, h, id)
  }

  /** The event is the registration of the first message of a batch. */
  predicate Registers(s: State, e: Event) {
    e.Act? && e.choice.Go? && e.p in s.procs && s.procs[e.p].phase.Register?
  }

  /** The handle that the event turned into `h`. */
  function Before(s: State, e: Event, h: Handle): Handle {
    if Registers(s, e) then
      match h
      case InBatch(p, i) => if p == e.p then InBatch(p, i + 1) else h
      case InLocals(c, name) =>
        if c == s.procs[e.p].client && name == s.procs[e.p].phase.name then InBatch(e.p, 0) else h
      case InDone(_) => h
    else if e.StartDone? && h == InDone(e.p) then InLocals(e.client, e.name)
    else h
  }

  /** XREADGROUP has just handed `id` over. */
  ghost predicate NewlyRead(s: State, e: Event, h: Handle, id: Id) {
    && e.Act? && e.choice.Go? && e.p in s.procs && s.procs[e.p].phase.ReaderIdle?
    && h.InBatch? && h.p == e.p && id in Undelivered(s.redis, e.choice.newId)
    && h.i < |Batch(s.redis, e.choice.newId)| && Batch(s.redis, e.choice.newId)[h.i].id == id
  }

  lemma RecoverHandles(cfg: Config, s: State, p: ProcId, newId: Id, h: Handle, id: Id)
    requires p in s.procs && (s.procs[p].phase.Add? ==> s.redis.lastId < newId)
    requires s.procs[p].phase.ScanIdle? || Recovering(s.procs[p].phase)
    requires Holds(GoRecover(cfg, s, p, newId), h, id)
    ensures Holds(s, h, id)
  {
    hide GoRecover, NextPhase;
    if h.InLocals? {
      RecoverLocals(cfg, s, p, newId);
    } else if h.p == p {
      RecoverPhase(cfg, s, p, newId);
      RecoverStays(cfg, s.redis, s.procs[p].phase, h, id);
    } else {
      RecoverBystander(cfg, s, p, newId, h.p);
    }
  }

  lemma RecoverLocals(cfg: Config, s: State, p: ProcId, newId: Id)
    requires p in s.procs && (s.procs[p].phase.Add? ==> s.redis.lastId < newId)
    ensures GoRecover(cfg, s, p, newId).locals == s.locals
  {
    hide RequeueFields, DeadFields, DataStreamName, LockKey, Exists, XPending, AfterRead, AfterCheck, Finish, NextInPage,
         RetryCount, Requeued, XAdd, XAck, XDel;
  }

  lemma RecoverStays(cfg: Config, r: Server, ph: Phase, h: Handle, id: Id)
    requires ph.ScanIdle? || Recovering(ph)
    ensures !ByProc(NextPhase(cfg, r, ph), h, id)
  {
    hide DataStreamName, LockKey, Exists, RetryCount, NextRetry, XPending;
  }

  lemma FailHandles(s: State, p: ProcId, h: Handle, id: Id)
    requires p in s.procs && (Holds(Fail1(s, p), h, id) || Holds(Cancel1(s, p), h, id))
    ensures Holds(s, h, id)
  {
    hide Fail1, Cancel1;
    FailLocals(s, p);
    if !h.InLocals? {
      if h.p == p {
        FailPhases(s, p, h, id);
      } else {
        FailBystander(s, p, h.p);
      }
    }
  }

  lemma FailLocals(s: State, p: ProcId)
    requires p in s.procs
    ensures Fail1(s, p).locals == s.locals && Cancel1(s, p).locals == s.locals
  {
    hide Finish;
  }

  lemma FailPhases(s: State, p: ProcId, h: Handle, id: Id)
    requires p in s.procs && !h.InLocals?
    ensures p in Fail1(s, p).procs && p in Cancel1(s, p).procs
    ensures ByProc(Fail1(s, p).procs[p].phase, h, id) ==> ByProc(s.procs[p].phase, h, id)
    ensures ByProc(Cancel1(s, p).procs[p].phase, h, id) ==> ByProc(s.procs[p].phase, h, id)
  {
  }

  lemma RegisterHandles(s: State, p: ProcId, newId: Id, child: ProcId, h: Handle, id: Id)
    requires p in s.procs && s.procs[p].phase.Register? && child !in s.procs && s.procs[p].phase.batch != []
    requires Holds(StepRegister(s, p, s.procs[p].phase.name, s.procs[p].phase.batch, child), h, id)
    ensures Holds(s, Before(s, Act(p, Go(newId, child)), h), id)
  {
  }

  /** Any other command of a reader, an extender or `DoneStream`. */
  lemma OwnHandles(cfg: Config, s: State, p: ProcId, newId: Id, child: ProcId, h: Handle, id: Id)
    requires p in s.procs && CanGo(s, p, newId, child)
    requires !s.procs[p].phase.Register? && !s.procs[p].phase.ReaderIdle?
    requires !s.procs[p].phase.ScanIdle? && !Recovering(s.procs[p].phase)
    requires Holds(GoOwn(cfg, s, p, newId, child), h, id)
    ensures Holds(s, h, id)
  {
    hide DataStreamName, LockKey, Exists, SetNX, CanExtend, Extend, Unlock, XAck, XDel;
  }

  lemma ReadHandles(s: State, p: ProcId, newId: Id, child: ProcId, h: Handle, id: Id)
    requires p in s.procs && s.procs[p].phase.ReaderIdle? && s.redis.cursor <= newId
    requires Holds(StepReadGroup(s, p, newId), h, id)
    ensures Holds(s, h, id) || NewlyRead(s, Act(p, Go(newId, child)), h, id)
  {
    hide Batch, Deliver, XReadGroup, Undelivered;
  }

  lemma GoHandles(cfg: Config, s: State, p: ProcId, newId: Id, child: ProcId, h: Handle, id: Id)
    requires p in s.procs && CanGo(s, p, newId, child) && Holds(Go1(cfg, s, p, newId, child), h, id)
    ensures var e := Act(p, Go(newId, child)); Holds(s, Before(s, e, h), id) || NewlyRead(s, e, h, id)
  {
    hide GoRecover, Holds, NewlyRead, StepReadGroup, StepRegister;
    var ph := s.procs[p].phase;
    if ph.ScanIdle? || Recovering(ph) {
      RecoverHandles(cfg, s, p, newId, h, id);
    } else if ph.ReaderIdle? {
      ReadHandles(s, p, newId, child, h, id);
    } else if ph.Register? {
      RegisterHandles(s, p, newId, child, h, id);
    } else {
      OwnHandles(cfg, s, p, newId, child, h, id);
    }
  }

  /** Every handle on an id comes from a handle on it, except at its delivery. */
  lemma CameFrom(cfg: Config, s: State, e: Event, h: Handle, id: Id)
    requires Enabled(s, e) && Holds(Apply(cfg, s, e), h, id)
    ensures Holds(s, Before(s, e, h), id) || NewlyRead(s, e, h, id)
  {
    hide Go1, Fail1, Cancel1, NewlyRead, CanGo;
    if e.Act? {
      match e.choice
      case Go(newId, child) => GoHandles(cfg, s, e.p, newId, child, h, id);
      case _ => FailHandles(s, e.p, h, id);
    }
  }

  // ---- A lost handle never comes back ----

  /** Only a `DoneStream` with the id in hand finishes it. */
  lemma FinishStep(cfg: Config, s: State, e: Event, id: Id)
    requires Enabled(s, e)
    requires var l := Apply(cfg, s, e).ledger; id in l.book && l.book[id].status.Finished?
    ensures (id in s.ledger.book && s.ledger.book[id].status.Finished?) || exists h :: Holds(s, h, id)
  {
    hide GoRecover, GoOwn, Fail1, Cancel1;
    if e.Act? {
      match e.choice
      case Go(newId, child) =>
        if s.procs[e.p].phase.ScanIdle? || Recovering(s.procs[e.p].phase) {
          RecoverStatus(cfg, s, e.p, newId, id);
        } else {
          OwnStatus(cfg, s, e.p, newId, child, id);
          assert s.procs[e.p].phase.DoneAck? && s.procs[e.p].phase.id == id ==> Holds(s, InDone(e.p), id);
        }
      case Fail => FailStatus(s, e.p, id);
      case Cancel => CancelLedger(s, e.p);
    }
  }

  ghost predicate IsFinished(s: State, id: Id) {
    id in s.ledger.book && s.ledger.book[id].status.Finished?
  }

  /** Some continuation ends with the id finished. */
  ghost predicate Finishable(cfg: Config, s: State, id: Id) {
    exists es, s' :: Leads(cfg, s, es, s') && IsFinished(s', id)
  }

  /** Delivered, out of everybody's hands, not finished. */
  ghost predicate OutOfHands(s: State, id: Id) {
    id <= s.redis.cursor && NoHandle(s, id) && !IsFinished(s, id)
  }

  lemma OutOfHandsStep(cfg: Config, s: State, e: Event, id: Id)
    requires Enabled(s, e) && OutOfHands(s, id)
    ensures OutOfHands(Apply(cfg, s, e), id)
  {
    hide Apply, Enabled, Holds, Before, Monotone;
    var s' := Apply(cfg, s, e);
    StepMonotone(cfg, s, e, s') by { assert Step(cfg, s, e, s'); }
    assert s.redis.cursor <= s'.redis.cursor by { assert Monotone(s.redis, s'.redis); MonotoneCursor(s.redis, s'.redis); }
    forall h ensures !Holds(s', h, id) {
      if Holds(s', h, id) {
        CameFrom(cfg, s, e, h, id);
        assert false;
      }
    }
    if IsFinished(s', id) {
      FinishStep(cfg, s, e, id);
      assert false;
    }
  }

  lemma MonotoneCursor(r: Server, r': Server)
    requires Monotone(r, r')
    ensures r.cursor <= r'.cursor
  {
  }

  lemma {:induction false} OutOfHandsForever(cfg: Config, s: State, es: seq<Event>, s': State, id: Id)
    requires Leads(cfg, s, es, s') && OutOfHands(s, id)
    ensures OutOfHands(s', id)
    decreases |es|
  {
    hide Apply, Enabled, OutOfHands;
    if es != [] {
      OutOfHandsStep(cfg, s, es[0], id);
      OutOfHandsForever(cfg, Apply(cfg, s, es[0]), es[1..], s', id);
    }
  }

  // ---- The exact condition ----

  /** No reader has the id in the part of its batch that it still has to register. */
  ghost predicate NotQueued(s: State, id: Id) {
    forall p, i :: !Holds(s, InBatch(p, i), id)
  }

  lemma DoneFinishes(cfg: Config, s: State, p: ProcId, id: Id)
    requires p in s.procs && s.procs[p].phase.DoneAck? && s.procs[p].phase.id == id
    requires id in s.redis.pel && id in s.ledger.book
    ensures Finishable(cfg, s, id)
  {
    hide Leads;
    var e := Act(p, Go(0, 0));
    One(cfg, s, e);
    assert IsFinished(Apply(cfg, s, e), id);
  }

  lemma LocalsFinish(cfg: Config, s: State, c: ClientId, name: string, id: Id)
    requires Holds(s, InLocals(c, name), id) && id in s.redis.pel && id in s.ledger.book
    ensures Finishable(cfg, s, id)
  {
    hide Leads, Finishable;
    var p := NewProc(s, 0);
    var e := StartDone(p, c, name);
    var s1 := Apply(cfg, s, e);
    DoneFinishes(cfg, s1, p, id);
    Prefixed(cfg, s, e, id);
  }

  lemma Prefixed(cfg: Config, s: State, e: Event, id: Id)
    requires Enabled(s, e) && Finishable(cfg, Apply(cfg, s, e), id)
    ensures Finishable(cfg, s, id)
  {
    hide Apply, Enabled, Leads, IsFinished;
    var es, s' :| Leads(cfg, Apply(cfg, s, e), es, s') && IsFinished(s', id);
    One(cfg, s, e);
    Chain(cfg, s, [e], Apply(cfg, s, e), es, s');
  }

  /**
   A pending entry that no reader still has to register can be finished exactly when some client's streamLocks
   names it or a `DoneStream` call already has it.
   */
  lemma FinishableIff(cfg: Config, s: State, id: Id)
    requires ValidConfig(cfg) && Reachable(cfg, s) && id in s.redis.pel && NotQueued(s, id)
    ensures Finishable(cfg, s, id) <==>
            (exists c, name :: Holds(s, InLocals(c, name), id)) || (exists p :: Holds(s, InDone(p), id))
  {
    hide Reachable, Finishable, BookInv, DeadInv, ProcsInv, LocalsInv, HeldInv;
    Guarantees.ReachableInv(cfg, s);
    assert StatusOk(s, id);
    hide RedisInv, Holds;
    if c, name :| Holds(s, InLocals(c, name), id) {
      LocalsFinish(cfg, s, c, name, id);
    } else if p :| Holds(s, InDone(p), id) {
      DoneFinishes(cfg, s, p, id) by { DoneHolds(s, p, id); }
    } else {
      forall h ensures !Holds(s, h, id) {
        match h
        case InBatch(p, i) =>
        case InLocals(c, name) =>
        case InDone(p) =>
      }
      NeverFinished(cfg, s, id);
    }
  }

  lemma DoneHolds(s: State, p: ProcId, id: Id)
    requires Holds(s, InDone(p), id)
    ensures p in s.procs && s.procs[p].phase.DoneAck? && s.procs[p].phase.id == id
  {
  }

  lemma NeverFinished(cfg: Config, s: State, id: Id)
    requires OutOfHands(s, id)
    ensures !Finishable(cfg, s, id)
  {
    hide Leads, NoHandle, IsFinished;
    forall es, s' | Leads(cfg, s, es, s') ensures !IsFinished(s', id) {
      OutOfHandsForever(cfg, s, es, s', id);
    }
  }

  // ---- One handle per entry ----

  ghost predicate HandleInv(s: State) {
    && (forall h, id: Id :: Holds(s, h, id) ==> id <= s.redis.cursor)
    && (forall h, g, id: Id :: Holds(s, h, id) && Holds(s, g, id) ==> h == g)
  }

  /** Two handles are never turned into from one. */
  lemma BeforeApart(cfg: Config, s: State, e: Event, h: Handle, g: Handle, id: Id)
    requires Enabled(s, e) && Holds(Apply(cfg, s, e), h, id) && Holds(Apply(cfg, s, e), g, id)
    requires Before(s, e, h) == Before(s, e, g)
    ensures h == g
  {
    hide Go1, Fail1, Cancel1, CanGo;
  }

  lemma ReadApart(s: State, e: Event, h: Handle, g: Handle, id: Id)
    requires NewlyRead(s, e, h, id) && NewlyRead(s, e, g, id)
    ensures h == g
  {
    BatchAscends(s.redis, e.choice.newId, h.i, g.i);
    BatchAscends(s.redis, e.choice.newId, g.i, h.i);
  }

  lemma BatchAscends(r: Server, upTo: Id, i: nat, j: nat)
    requires i < |Batch(r, upTo)| && j < |Batch(r, upTo)|
    ensures i < j ==> Batch(r, upTo)[i].id < Batch(r, upTo)[j].id
  {
  }

  lemma ReadCursor(cfg: Config, s: State, e: Event, h: Handle, id: Id)
    requires Enabled(s, e) && NewlyRead(s, e, h, id)
    ensures s.redis.cursor < id <= Apply(cfg, s, e).redis.cursor
  {
    hide Batch, Deliver;
  }

  lemma HandleStep(cfg: Config, s: State, e: Event)
    requires Enabled(s, e) && HandleInv(s)
    ensures HandleInv(Apply(cfg, s, e))
  {
    hide Apply, Enabled, Holds, Before, NewlyRead, Monotone;
    var s' := Apply(cfg, s, e);
    StepMonotone(cfg, s, e, s') by { assert Step(cfg, s, e, s'); }
    MonotoneCursor(s.redis, s'.redis);
    forall h, id: Id | Holds(s', h, id) ensures id <= s'.redis.cursor {
      CameFrom(cfg, s, e, h, id);
      if NewlyRead(s, e, h, id) {
        ReadCursor(cfg, s, e, h, id);
      }
    }
    forall h, g, id: Id | Holds(s', h, id) && Holds(s', g, id) ensures h == g {
      CameFrom(cfg, s, e, h, id);
      CameFrom(cfg, s, e, g, id);
      if NewlyRead(s, e, h, id) {
        ReadCursor(cfg, s, e, h, id);
        assert NewlyRead(s, e, g, id);
        ReadApart(s, e, h, g, id);
      } else if NewlyRead(s, e, g, id) {
        ReadCursor(cfg, s, e, g, id);
        assert false;
      } else {
        BeforeApart(cfg, s, e, h, g, id);
      }
    }
  }

  lemma {:induction false} RunHandles(cfg: Config, tr: seq<State>, es: seq<Event>, k: nat)
    requires Run(cfg, tr, es) && k <= |es|
    ensures HandleInv(tr[k])
  {
    hide HandleInv, Apply, Enabled;
    if k == 0 {
      NoneAtFirst(tr[0]);
    } else {
      RunHandles(cfg, tr, es, k - 1);
      StepAt(cfg, tr, es, k - 1);
      HandleStep(cfg, tr[k - 1], es[k - 1]);
    }
  }

  lemma NoneAtFirst(s: State)
    requires Init(s)
    ensures HandleInv(s)
  {
  }

  /** In every reachable state an entry is reached in at most one way, and only after its delivery. */
  lemma OneHandle(cfg: Config, s: State)
    requires Reachable(cfg, s)
    ensures HandleInv(s)
  {
    hide HandleInv, Init, Step;
    var tr, es :| Run(cfg, tr, es) && tr[|es|] == s;
    RunHandles(cfg, tr, es, |es|);
  }

  /**
   A second message of a name takes the place of the first in streamLocks: from then on the first entry, still
   pending, can never be finished.
   */
  lemma Overwritten(cfg: Config, s: State, p: ProcId, newId: Id, child: ProcId, first: Id)
    requires ValidConfig(cfg) && Reachable(cfg, s) && p in s.procs && s.procs[p].phase.Register?
    requires Enabled(s, Act(p, Go(newId, child)))
    requires Holds(s, InLocals(s.procs[p].client, s.procs[p].phase.name), first) && first in s.redis.pel
    ensures OutOfHands(Apply(cfg, s, Act(p, Go(newId, child))), first)
    ensures !Finishable(cfg, Apply(cfg, s, Act(p, Go(newId, child))), first)
  {
    hide Reachable, Finishable, BookInv, DeadInv, ProcsInv, LocalsInv, HeldInv, Apply, NewlyRead, CanGo;
    Guarantees.ReachableInv(cfg, s);
    assert StatusOk(s, first);
    hide RedisInv;
    OneHandle(cfg, s);
    var e := Act(p, Go(newId, child));
    var s' := Apply(cfg, s, e);
    forall h ensures !Holds(s', h, first) {
      if Holds(s', h, first) {
        CameFrom(cfg, s, e, h, first);
        assert !NewlyRead(s, e, h, first) by { NotReading(s, e, h, first); }
        assert false;
      }
    }
    RegisterKeepsRest(cfg, s, p, newId, child);
    NeverFinished(cfg, s', first);
  }

  lemma NotReading(s: State, e: Event, h: Handle, id: Id)
    requires Registers(s, e)
    ensures !NewlyRead(s, e, h, id)
  {
    hide Batch;
  }

  lemma RegisterKeepsRest(cfg: Config, s: State, p: ProcId, newId: Id, child: ProcId)
    requires p in s.procs && s.procs[p].phase.Register? && Enabled(s, Act(p, Go(newId, child)))
    ensures var s' := Apply(cfg, s, Act(p, Go(newId, child))); s'.redis == s.redis && s'.ledger == s.ledger
  {
  }

  /**
   An extender on its way out forgets whatever its client has under the name: that entry, if still pending, can
   never be finished from then on.
   */
  lemma Disowned(cfg: Config, s: State, p: ProcId, newId: Id, child: ProcId, id: Id)
    requires ValidConfig(cfg) && Reachable(cfg, s) && p in s.procs && s.procs[p].phase.ExtExit?
    requires Holds(s, InLocals(s.procs[p].client, s.procs[p].phase.name), id) && id in s.redis.pel
    ensures Enabled(s, Act(p, Go(newId, child)))
    ensures OutOfHands(Apply(cfg, s, Act(p, Go(newId, child))), id)
    ensures !Finishable(cfg, Apply(cfg, s, Act(p, Go(newId, child))), id)
  {
    hide Reachable, Finishable, BookInv, DeadInv, ProcsInv, LocalsInv, HeldInv, Apply, NewlyRead;
    Guarantees.ReachableInv(cfg, s);
    assert StatusOk(s, id);
    hide RedisInv;
    OneHandle(cfg, s);
    var e := Act(p, Go(newId, child));
    var s' := Apply(cfg, s, e);
    ExitForgets(cfg, s, p, newId, child);
    forall h ensures !Holds(s', h, id) {
      ExitReadsNothing(s, e, h, id);
      if Holds(s', h, id) {
        CameFrom(cfg, s, e, h, id);
        assert false;
      }
    }
    NeverFinished(cfg, s', id);
  }

  lemma ExitReadsNothing(s: State, e: Event, h: Handle, id: Id)
    requires e.Act? && e.p in s.procs && s.procs[e.p].phase.ExtExit?
    ensures !NewlyRead(s, e, h, id)
  {
    hide Batch;
  }

  lemma ExitForgets(cfg: Config, s: State, p: ProcId, newId: Id, child: ProcId)
    requires p in s.procs && s.procs[p].phase.ExtExit?
    ensures Enabled(s, Act(p, Go(newId, child)))
    ensures var s' := Apply(cfg, s, Act(p, Go(newId, child)));
            && s'.redis == s.redis && s'.ledger == s.ledger
            && s.procs[p].phase.name !in LocalsOf(s', s.procs[p].client)
  {
  }
}

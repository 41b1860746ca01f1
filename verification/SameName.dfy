/**
 Two messages with one data stream name on one client. From every reachable
 state the second registration can come while the first entry is pending; that
 entry is then stranded: nobody can finish it, its extender goes on renewing its
 key because the name is still in `streamLocks`, and no recovery takes it as
 long as the key is there.
 */
module SameName {
  import opened Wrappers
  import opened MutexKey
  import opened Entry
  import opened Redis
  import opened Protocol
  import opened Invariant
  import opened Preservation
  import opened Witness
  import opened Runs
  import opened Heartbeat
  import opened Continuations
  import opened Finishing

  // ---- A stranded entry ----

  /** No process is about to acknowledge `id`. */
  ghost predicate Untaken(s: State, id: Id) {
    forall p :: p in s.procs ==> !TakesId(s.procs[p].phase, id)
  }

  /** Pending, out of everybody's hands, with a live key. */
  ghost predicate Orphaned(cfg: Config, s: State, name: string, id: Id) {
    && id in s.redis.pel && OutOfHands(s, id) && Untaken(s, id) && NameOf(cfg, s, id, name)
    && Exists(s.redis, LockKey(name, id))
  }

  /** Extender `p` of client `c` still renews the key of an entry that streamLocks has forgotten. */
  ghost predicate Stranded(cfg: Config, s: State, p: ProcId, c: ClientId, name: string, id: Id) {
    && Orphaned(cfg, s, name, id)
    && p in s.procs && s.procs[p] == Proc(c, ExtCheck(name, id))
    && c in s.locals && name in s.locals[c]
    && s.redis.locks[LockKey(name, id)].owner == c
  }

  /** The events can happen after `s`, and the key is there all along. */
  ghost predicate KeyAlong(cfg: Config, s: State, es: seq<Event>, key: string)
    decreases |es|
  {
    && Exists(s.redis, key)
    && (es != [] ==> Enabled(s, es[0]) && KeyAlong(cfg, Apply(cfg, s, es[0]), es[1..], key))
  }

  // ---- With its key there, no recovery takes it ----

  /** How a recovery comes to be about to acknowledge an id. */
  lemma NextTakes(cfg: Config, r: Server, ph: Phase, id: Id)
    requires ph.ScanIdle? || Recovering(ph)
    requires TakesId(NextPhase(cfg, r, ph), id)
    ensures || (ph.Read? && ph.id == id && (id !in r.entries || DataStreamName(cfg.parse, r.entries[id]).Err?))
            || (ph.Check? && ph.id == id && !Exists(r, LockKey(ph.name, id)))
  {
    hide DataStreamName, LockKey, Exists, RetryCount, NextRetry, XPending;
  }

  lemma OwnNoTaker(cfg: Config, s: State, p: ProcId, newId: Id, child: ProcId, id: Id)
    requires p in s.procs && CanGo(s, p, newId, child) && !s.procs[p].phase.ScanIdle? && !Recovering(s.procs[p].phase)
    ensures p in GoOwn(cfg, s, p, newId, child).procs
    ensures !TakesId(GoOwn(cfg, s, p, newId, child).procs[p].phase, id)
  {
    hide DataStreamName, LockKey, Exists, Batch, Deliver, XReadGroup, XAck, XDel, SetNX, Extend, Unlock, CanExtend;
  }

  lemma FailNoTaker(s: State, p: ProcId, id: Id)
    requires p in s.procs && !TakesId(s.procs[p].phase, id)
    ensures p in Fail1(s, p).procs && p in Cancel1(s, p).procs
    ensures !TakesId(Fail1(s, p).procs[p].phase, id) && !TakesId(Cancel1(s, p).procs[p].phase, id)
  {
  }

  /** What the invariant says of a recovery of a pending entry. */
  lemma RecoveryKnows(cfg: Config, s: State, p: ProcId, name: string, id: Id)
    requires Inv(cfg, s) && p in s.procs && id in s.redis.pel && NameOf(cfg, s, id, name)
    ensures id in s.redis.entries && DataStreamName(cfg.parse, s.redis.entries[id]) == Ok(name)
    ensures s.procs[p].phase.Check? && s.procs[p].phase.id == id ==> s.procs[p].phase.name == name
  {
    hide BookInv, DeadInv, LocalsInv, HeldInv, DataStreamName;
    assert StatusOk(s, id);
    assert ProcOk(cfg, s.ledger, s.redis.lastId, p, s.procs[p].phase);
  }

  lemma ActorNoTaker(cfg: Config, s: State, p: ProcId, newId: Id, child: ProcId, name: string, id: Id)
    requires Inv(cfg, s) && Orphaned(cfg, s, name, id) && p in s.procs && CanGo(s, p, newId, child)
    ensures p in Go1(cfg, s, p, newId, child).procs
    ensures !TakesId(Go1(cfg, s, p, newId, child).procs[p].phase, id)
  {
    hide Inv, GoRecover, GoOwn, NextPhase, OutOfHands, Exists, DataStreamName, LockKey, TakesId;
    var ph := s.procs[p].phase;
    if ph.ScanIdle? || Recovering(ph) {
      RecoverPhase(cfg, s, p, newId);
      RecoveryKnows(cfg, s, p, name, id);
      if TakesId(NextPhase(cfg, s.redis, ph), id) {
        NextTakes(cfg, s.redis, ph, id);
        assert false;
      }
    } else {
      OwnNoTaker(cfg, s, p, newId, child, id);
    }
  }

  lemma UntakenStep(cfg: Config, s: State, e: Event, name: string, id: Id)
    requires Inv(cfg, s) && Enabled(s, e) && Orphaned(cfg, s, name, id)
    requires NoHandle(Apply(cfg, s, e), id)
    ensures Untaken(Apply(cfg, s, e), id)
  {
    hide Inv, Go1, Fail1, Cancel1, OutOfHands, Exists, DataStreamName, LockKey, CanGo;
    var s' := Apply(cfg, s, e);
    forall p | p in s'.procs ensures !TakesId(s'.procs[p].phase, id) {
      if e.Act? && e.p == p {
        FailNoTaker(s, p, id);
        if e.choice.Go? {
          ActorNoTaker(cfg, s, p, e.choice.newId, e.choice.child, name, id);
        }
      } else {
        Bystander(cfg, s, e, s', p);
        assert !Holds(s', InDone(p), id);
      }
    }
  }

  lemma OrphanStep(cfg: Config, s: State, e: Event, name: string, id: Id)
    requires ValidConfig(cfg) && Inv(cfg, s) && Enabled(s, e) && Orphaned(cfg, s, name, id)
    requires Exists(Apply(cfg, s, e).redis, LockKey(name, id))
    ensures Inv(cfg, Apply(cfg, s, e)) && Orphaned(cfg, Apply(cfg, s, e), name, id)
  {
    hide Inv, Apply, Enabled, NoHandle, Exists, DataStreamName, LockKey, TakesId, IsFinished;
    var s' := Apply(cfg, s, e);
    assert Step(cfg, s, e, s');
    StepKeeps(cfg, s, e, s');
    OutOfHandsStep(cfg, s, e, id);
    UntakenStep(cfg, s, e, name, id);
    if id !in s'.redis.pel {
      TakeStep(cfg, s, e, s', id);
      assert false;
    }
    NameKept(cfg, s, e, name, id);
  }

  lemma RecoverFields(cfg: Config, s: State, p: ProcId, newId: Id, id: Id)
    requires p in s.procs && (s.procs[p].phase.Add? ==> s.redis.lastId < newId)
    requires id in s.ledger.book && id <= s.redis.lastId
    ensures var l := GoRecover(cfg, s, p, newId).ledger; id in l.book && l.book[id].fields == s.ledger.book[id].fields
  {
    hide RequeueFields, DeadFields, XPending, AfterRead, AfterCheck, Finish, NextInPage, XAdd, XDel, XAddDead, AckWon;
    var ph := s.procs[p].phase;
    if (ph.Clear? || ph.AckRequeue? || ph.AckDead?) && ph.id in s.redis.pel {
      var status := if ph.Clear? then Discarded else if ph.AckRequeue? || cfg.dlqStream != "" then Held else Dropped;
      WonStatus(s, p, ph.id, status, id);
    }
  }

  lemma OwnFields(cfg: Config, s: State, p: ProcId, newId: Id, child: ProcId, id: Id)
    requires p in s.procs && CanGo(s, p, newId, child) && id in s.ledger.book
    ensures var l := GoOwn(cfg, s, p, newId, child).ledger; id in l.book && l.book[id].fields == s.ledger.book[id].fields
  {
    hide DataStreamName, LockKey, Exists, Batch, XReadGroup, XAck, XDel, SetNX, Extend, Unlock, CanExtend;
  }

  lemma FailFields(s: State, p: ProcId, id: Id)
    requires p in s.procs && id in s.ledger.book
    ensures var l := Fail1(s, p).ledger; id in l.book && l.book[id].fields == s.ledger.book[id].fields
    ensures Cancel1(s, p).ledger == s.ledger
  {
    hide Finish;
  }

  lemma FieldsKept(cfg: Config, s: State, e: Event, id: Id)
    requires Enabled(s, e) && id in s.ledger.book && id <= s.redis.lastId
    ensures var l := Apply(cfg, s, e).ledger; id in l.book && l.book[id].fields == s.ledger.book[id].fields
  {
    hide GoRecover, GoOwn, Fail1, Cancel1;
    if e.Act? {
      match e.choice
      case Go(newId, child) =>
        if s.procs[e.p].phase.ScanIdle? || Recovering(s.procs[e.p].phase) {
          RecoverFields(cfg, s, e.p, newId, id);
        } else {
          OwnFields(cfg, s, e.p, newId, child, id);
        }
      case _ => FailFields(s, e.p, id);
    }
  }

  lemma NameKept(cfg: Config, s: State, e: Event, name: string, id: Id)
    requires ValidConfig(cfg) && Inv(cfg, s) && Enabled(s, e) && NameOf(cfg, s, id, name)
    ensures NameOf(cfg, Apply(cfg, s, e), id, name)
  {
    hide Apply, Enabled, DataStreamName, BookInv, DeadInv, LocalsInv, HeldInv, ProcsInv;
    FieldsKept(cfg, s, e, id);
  }

  /** An orphaned entry is neither finished nor recovered by anyone, in every continuation that keeps its key. */
  lemma {:induction false} KeyStrands(cfg: Config, s: State, es: seq<Event>, s': State, name: string, id: Id)
    requires ValidConfig(cfg) && Inv(cfg, s) && Orphaned(cfg, s, name, id)
    requires Leads(cfg, s, es, s') && KeyAlong(cfg, s, es, LockKey(name, id))
    ensures Orphaned(cfg, s', name, id)
    decreases |es|
  {
    hide Inv, Apply, Enabled, Orphaned, LockKey, Exists;
    if es != [] {
      OrphanStep(cfg, s, es[0], name, id) by { HeadKey(cfg, s, es, LockKey(name, id)); }
      KeyStrands(cfg, Apply(cfg, s, es[0]), es[1..], s', name, id);
    }
  }

  lemma HeadKey(cfg: Config, s: State, es: seq<Event>, key: string)
    requires es != [] && KeyAlong(cfg, s, es, key)
    ensures Enabled(s, es[0]) && Exists(Apply(cfg, s, es[0]).redis, key)
  {
    hide Apply, Enabled, Exists;
  }

  // ---- Its extender keeps the key ----

  lemma {:induction false} KeyChain(cfg: Config, s: State, es: seq<Event>, s1: State, fs: seq<Event>, key: string)
    requires Leads(cfg, s, es, s1) && KeyAlong(cfg, s, es, key) && KeyAlong(cfg, s1, fs, key)
    ensures KeyAlong(cfg, s, es + fs, key)
    decreases |es|
  {
    hide Apply, Enabled, Exists;
    if es == [] {
      assert es + fs == fs;
    } else {
      KeyChain(cfg, Apply(cfg, s, es[0]), es[1..], s1, fs, key);
      assert (es + fs)[1..] == es[1..] + fs;
    }
  }

  /** The loop finds the name in streamLocks and goes on to Extend. */
  lemma LoopGoesOn(cfg: Config, s: State, p: ProcId, c: ClientId, name: string, id: Id)
    requires p in s.procs && s.procs[p] == Proc(c, ExtCheck(name, id)) && c in s.locals && name in s.locals[c]
    ensures Enabled(s, Act(p, Go(0, 0)))
    ensures Apply(cfg, s, Act(p, Go(0, 0))) == Goto(s, p, ExtExtend(name, id))
  {
  }

  lemma ExtendRenews(cfg: Config, s: State, p: ProcId, c: ClientId, name: string, id: Id)
    requires p in s.procs && s.procs[p] == Proc(c, ExtExtend(name, id))
    requires LockKey(name, id) in s.redis.locks && s.redis.locks[LockKey(name, id)].owner == c
    ensures Enabled(s, Act(p, Go(0, 0)))
    ensures var r := s.redis.(locks := s.redis.locks[LockKey(name, id) := Lock(c, s.redis.now + cfg.hbInterval)]);
            Apply(cfg, s, Act(p, Go(0, 0))) == Goto(s.(redis := r), p, ExtCheck(name, id))
  {
    hide LockKey;
  }

  /** One turn of the extender's loop, sleep included. */
  lemma Turn(cfg: Config, s: State, p: ProcId, c: ClientId, name: string, id: Id) returns (es: seq<Event>, s': State)
    requires ValidConfig(cfg) && 0 < cfg.hbInterval && Inv(cfg, s) && Stranded(cfg, s, p, c, name, id)
    ensures Leads(cfg, s, es, s') && KeyAlong(cfg, s, es, LockKey(name, id))
    ensures Inv(cfg, s') && Stranded(cfg, s', p, c, name, id)
    ensures s'.redis.now == s.redis.now + cfg.hbInterval / 2
  {
    hide Inv, Leads, KeyAlong, OutOfHands, Untaken, NameOf, LockKey, Enabled, Go1;
    var key, go, tick := LockKey(name, id), Act(p, Go(0, 0)), Tick(cfg.hbInterval / 2);
    LoopGoesOn(cfg, s, p, c, name, id);
    var s1 := Apply(cfg, s, go);
    OrphanStep(cfg, s, go, name, id);
    ExtendRenews(cfg, s1, p, c, name, id);
    var s2 := Apply(cfg, s1, go);
    OrphanStep(cfg, s1, go, name, id);
    TickEnabled(s2, cfg.hbInterval / 2);
    s' := Apply(cfg, s2, tick);
    OrphanStep(cfg, s2, tick, name, id);
    One(cfg, s, go);
    Then(cfg, s, [go], s1, go);
    Then(cfg, s, [go] + [go], s2, tick);
    es := [go] + [go] + [tick];
    KeyAt(cfg, s, go, key);
    KeyAt(cfg, s1, go, key);
    KeyAt(cfg, s2, tick, key);
    KeyChain(cfg, s, [go], s1, [go], key);
    KeyChain(cfg, s, [go] + [go], s2, [tick], key);
  }

  lemma TickEnabled(s: State, d: nat)
    ensures Enabled(s, Tick(d))
  {
  }

  lemma KeyAt(cfg: Config, s: State, e: Event, key: string)
    requires Enabled(s, e) && Exists(s.redis, key) && Exists(Apply(cfg, s, e).redis, key)
    ensures KeyAlong(cfg, s, [e], key)
  {
    hide Apply, Enabled, Exists;
    assert [e][1..] == [];
  }

  /** However long one waits, the entry can still be stranded, with its key there at every moment. */
  lemma {:induction false} StrandedForever(cfg: Config, s: State, p: ProcId, c: ClientId, name: string, id: Id, time: nat)
    returns (es: seq<Event>, s': State)
    requires ValidConfig(cfg) && 1 < cfg.hbInterval && Inv(cfg, s) && Stranded(cfg, s, p, c, name, id)
    ensures Leads(cfg, s, es, s') && KeyAlong(cfg, s, es, LockKey(name, id))
    ensures Stranded(cfg, s', p, c, name, id) && s.redis.now + time <= s'.redis.now
    decreases time
  {
    hide Inv, Leads, KeyAlong, Orphaned, LockKey, Exists;
    if time == 0 {
      es, s' := [], s;
      Stay(cfg, s);
      KeyStays(cfg, s, p, c, name, id);
    } else {
      var es1, s1 := Turn(cfg, s, p, c, name, id);
      var es2, s2 := StrandedForever(cfg, s1, p, c, name, id, time - 1);
      Chain(cfg, s, es1, s1, es2, s2);
      KeyChain(cfg, s, es1, s1, es2, LockKey(name, id));
      es, s' := es1 + es2, s2;
    }
  }

  lemma KeyStays(cfg: Config, s: State, p: ProcId, c: ClientId, name: string, id: Id)
    requires Stranded(cfg, s, p, c, name, id)
    ensures KeyAlong(cfg, s, [], LockKey(name, id))
  {
  }

  // ---- How it comes about ----

  lemma SingleBatch(r: Server, id: Id)
    requires id in r.entries && r.cursor < id && forall x :: x in r.entries ==> x <= r.cursor || x == id
    ensures Batch(r, id) == [Message(id, r.entries[id])]
  {
    hide Ascending;
    Single(Undelivered(r, id), id + 1, id);
  }

  /** A key that names an id nobody has been handed yet does not exist. */
  lemma KeyFree(cfg: Config, s: State, name: string, id: Id)
    requires ValidConfig(cfg) && Reachable(cfg, s) && s.redis.cursor < id
    ensures LockKey(name, id) !in s.redis.locks
  {
    hide Init, Step, LockKey, OwnWork;
    var tr, es :| Run(cfg, tr, es) && tr[|es|] == s;
    RunOwnerInv(cfg, tr, es, |es|);
  }

  lemma LockStepIs(cfg: Config, s: State, q: ProcId, c: ClientId, m: Message, name: string)
    requires q in s.procs && s.procs[q] == Proc(c, Locking([m])) && LockKey(name, m.id) !in s.redis.locks
    requires DataStreamName(cfg.parse, m.fields) == Ok(name)
    ensures Enabled(s, Act(q, Go(0, 0)))
    ensures var r := s.redis.(locks := s.redis.locks[LockKey(name, m.id) := Lock(c, s.redis.now + cfg.hbInterval)]);
            Apply(cfg, s, Act(q, Go(0, 0))) == Goto(s.(redis := r), q, Register(name, [m]))
  {
    hide LockKey, DataStreamName;
  }

  /** A message is produced and read alone. */
  lemma ReadRound(cfg: Config, s: State, q: ProcId, c: ClientId, id: Id, f: Fields) returns (es: seq<Event>, s': State)
    requires RedisInv(s) && s.redis.cursor == s.redis.lastId < id
    requires q in s.procs && s.procs[q] == Proc(c, ReaderIdle)
    ensures Leads(cfg, s, es, s')
    ensures s'.procs == s.procs[q := Proc(c, Locking([Message(id, f)]))] && s'.locals == s.locals
    ensures s'.redis.cursor == s'.redis.lastId == id && s'.redis.now == s.redis.now && s'.redis.locks == s.redis.locks
    ensures id in s'.redis.pel && s.redis.pel.Keys <= s'.redis.pel.Keys
    ensures id in s'.ledger.book && s'.ledger.book[id].fields == f
    ensures forall x :: x in s.ledger.book ==> x in s'.ledger.book && s'.ledger.book[x] == s.ledger.book[x]
  {
    hide Leads, Batch, StatusOk, Go1;
    var e1, e2 := Produce(id, f), Act(q, Go(id, 0));
    var s1 := Apply(cfg, s, e1);
    DeliverStep(cfg, s1, q, id, 0);
    SingleBatch(s1.redis, id);
    s' := Apply(cfg, s1, e2);
    One(cfg, s, e1);
    Then(cfg, s, [e1], s1, e2);
    es := [e1] + [e2];
  }

  /** Then it is locked. */
  lemma LockRound(cfg: Config, s: State, q: ProcId, c: ClientId, id: Id, f: Fields, name: string)
    returns (es: seq<Event>, s': State)
    requires ValidConfig(cfg) && Reachable(cfg, s) && s.redis.cursor == s.redis.lastId < id
    requires q in s.procs && s.procs[q] == Proc(c, ReaderIdle) && DataStreamName(cfg.parse, f) == Ok(name)
    ensures Leads(cfg, s, es, s')
    ensures s'.procs == s.procs[q := Proc(c, Register(name, [Message(id, f)]))] && s'.locals == s.locals
    ensures s'.redis.cursor == s'.redis.lastId == id && s'.redis.now == s.redis.now
    ensures s'.redis.locks == s.redis.locks[LockKey(name, id) := Lock(c, s.redis.now + cfg.hbInterval)]
    ensures id in s'.redis.pel && s.redis.pel.Keys <= s'.redis.pel.Keys && NameOf(cfg, s', id, name)
    ensures forall x :: x in s.ledger.book ==> x in s'.ledger.book && s'.ledger.book[x] == s.ledger.book[x]
  {
    hide Reachable, Leads, DataStreamName, LockKey, Apply, Enabled;
    Guarantees.ReachableInv(cfg, s);
    hide BookInv, DeadInv, LocalsInv, HeldInv, ProcsInv, RedisInv;
    KeyFree(cfg, s, name, id);
    var es1, s1 := ReadRound(cfg, s, q, c, id, f);
    LockStepIs(cfg, s1, q, c, Message(id, f), name);
    s' := Apply(cfg, s1, Act(q, Go(0, 0)));
    Then(cfg, s, es1, s1, Act(q, Go(0, 0)));
    es := es1 + [Act(q, Go(0, 0))];
  }

  lemma RegisterStepIs(cfg: Config, s: State, q: ProcId, c: ClientId, m: Message, name: string, child: ProcId)
    requires q in s.procs && s.procs[q] == Proc(c, Register(name, [m])) && child !in s.procs
    ensures Enabled(s, Act(q, Go(0, child)))
    ensures Apply(cfg, s, Act(q, Go(0, child))) ==
            s.(locals := s.locals[c := LocalsOf(s, c)[name := m.id]],
               procs := s.procs[q := Proc(c, Locking([]))][child := Proc(c, ExtCheck(name, m.id))])
  {
    assert [m][1..] == [];
  }

  lemma BatchDone(cfg: Config, s: State, q: ProcId, c: ClientId)
    requires q in s.procs && s.procs[q] == Proc(c, Locking([]))
    ensures Enabled(s, Act(q, Go(0, 0))) && Apply(cfg, s, Act(q, Go(0, 0))) == Goto(s, q, ReaderIdle)
  {
  }

  /** The first message goes through: its extender `child` runs, and the reader waits for more. */
  lemma FirstRound(cfg: Config, s: State, q: ProcId, c: ClientId, id: Id, f: Fields, name: string)
    returns (es: seq<Event>, s': State, child: ProcId)
    requires ValidConfig(cfg) && Reachable(cfg, s) && s.redis.cursor == s.redis.lastId < id
    requires q in s.procs && s.procs[q] == Proc(c, ReaderIdle) && DataStreamName(cfg.parse, f) == Ok(name)
    ensures Leads(cfg, s, es, s') && child !in s.procs
    ensures s'.procs == s.procs[child := Proc(c, ExtCheck(name, id))]
    ensures s'.locals == s.locals[c := LocalsOf(s, c)[name := id]]
    ensures s'.redis.cursor == s'.redis.lastId == id && s'.redis.now == s.redis.now
    ensures s'.redis.locks == s.redis.locks[LockKey(name, id) := Lock(c, s.redis.now + cfg.hbInterval)]
    ensures id in s'.redis.pel && NameOf(cfg, s', id, name)
  {
    hide Reachable, Leads, DataStreamName, LockKey, Apply, Enabled;
    var es1, s1 := LockRound(cfg, s, q, c, id, f, name);
    child := NewProc(s1, 0);
    var e := Act(q, Go(0, child));
    RegisterStepIs(cfg, s1, q, c, Message(id, f), name, child);
    var s2 := Apply(cfg, s1, e);
    Then(cfg, s, es1, s1, e);
    BatchDone(cfg, s2, q, c);
    s' := Apply(cfg, s2, Act(q, Go(0, 0)));
    Then(cfg, s, es1 + [e], s2, Act(q, Go(0, 0)));
    es := es1 + [e] + [Act(q, Go(0, 0))];
  }

  /** Nobody has the entry of a new id in hand. */
  lemma NewId(s: State) returns (id: Id)
    ensures s.redis.lastId < id && forall p :: p in s.procs && Recovering(s.procs[p].phase) ==> s.procs[p].phase.id < id
  {
    var ids := set p | p in s.procs && Recovering(s.procs[p].phase) :: s.procs[p].phase.id;
    id := Above(ids + {s.redis.lastId});
    forall p | p in s.procs && Recovering(s.procs[p].phase) ensures s.procs[p].phase.id < id {
      assert s.procs[p].phase.id in ids;
    }
  }

  /** A reader of `c` with everything delivered. */
  lemma CaughtUp(cfg: Config, s: State, c: ClientId) returns (es: seq<Event>, s': State, q: ProcId)
    requires ValidConfig(cfg) && Reachable(cfg, s)
    ensures Leads(cfg, s, es, s') && s'.redis.cursor == s'.redis.lastId
    ensures q in s'.procs && s'.procs[q] == Proc(c, ReaderIdle)
  {
    hide Reachable, Leads, Batch, DataStreamName, Go1;
    Guarantees.ReachableInv(cfg, s);
    hide BookInv, DeadInv, LocalsInv, HeldInv, ProcsInv, StatusOk;
    var p := NewProc(s, 0);
    q := NewProc(s, p);
    var id := s.redis.lastId + 1;
    var e1, e2, e3, e4 := StartReader(p, c), StartReader(q, c), Produce(id, map[]), Act(p, Go(id, 0));
    var s1 := Apply(cfg, s, e1);
    var s2 := Apply(cfg, s1, e2);
    var s3 := Apply(cfg, s2, e3);
    DeliverStep(cfg, s3, p, id, 0);
    s' := Apply(cfg, s3, e4);
    One(cfg, s, e1);
    Then(cfg, s, [e1], s1, e2);
    Then(cfg, s, [e1] + [e2], s2, e3);
    Then(cfg, s, [e1] + [e2] + [e3], s3, e4);
    es := [e1] + [e2] + [e3] + [e4];
  }

  /** Between the first registration and the second: the entry is fully in order. */
  ghost predicate Working(cfg: Config, s: State, p: ProcId, q: ProcId, c: ClientId, name: string, id: Id) {
    && p in s.procs && s.procs[p] == Proc(c, ExtCheck(name, id)) && p != q
    && Holds(s, InLocals(c, name), id) && id in s.redis.pel && NameOf(cfg, s, id, name) && Untaken(s, id)
    && LockKey(name, id) in s.redis.locks
    && s.redis.locks[LockKey(name, id)] == Lock(c, s.redis.now + cfg.hbInterval)
  }

  /** From every reachable state: a message of this name can be read, locked and registered. */
  lemma FirstWorks(cfg: Config, s: State, c: ClientId, f: Fields, name: string)
    returns (es: seq<Event>, s': State, p: ProcId, q: ProcId, id: Id)
    requires ValidConfig(cfg) && Reachable(cfg, s) && DataStreamName(cfg.parse, f) == Ok(name)
    ensures Leads(cfg, s, es, s') && Working(cfg, s', p, q, c, name, id)
    ensures s'.redis.cursor == s'.redis.lastId && q in s'.procs && s'.procs[q] == Proc(c, ReaderIdle)
  {
    hide Reachable, Leads, DataStreamName, LockKey, Recovering;
    var es1, s1, q1 := CaughtUp(cfg, s, c);
    ReachableLeads(cfg, s, es1, s1);
    q := q1;
    id := NewId(s1);
    var es2, s2, child := FirstRound(cfg, s1, q, c, id, f, name);
    Chain(cfg, s, es1, s1, es2, s2);
    p := child;
    es, s' := es1 + es2, s2;
    forall x | x in s2.procs ensures !TakesId(s2.procs[x].phase, id) {
      NotTaking(cfg, s1, s2, child, c, name, id, x);
    }
  }

  lemma NotTaking(cfg: Config, s: State, s': State, child: ProcId, c: ClientId, name: string, id: Id, x: ProcId)
    requires ValidConfig(cfg) && Reachable(cfg, s) && s.redis.lastId < id && x in s'.procs
    requires s'.procs == s.procs[child := Proc(c, ExtCheck(name, id))]
    requires forall p :: p in s.procs && Recovering(s.procs[p].phase) ==> s.procs[p].phase.id < id
    ensures !TakesId(s'.procs[x].phase, id)
  {
    hide Reachable, DataStreamName;
    Guarantees.ReachableInv(cfg, s);
    hide BookInv, DeadInv, LocalsInv, HeldInv, StatusOk;
    if x in s.procs {
      assert ProcOk(cfg, s.ledger, s.redis.lastId, x, s.procs[x].phase);
    }
  }

  /** A second message of the name strands the first. */
  lemma SecondStrands(cfg: Config, s: State, p: ProcId, q: ProcId, c: ClientId, name: string, id: Id, f: Fields)
    returns (es: seq<Event>, s': State)
    requires ValidConfig(cfg) && 0 < cfg.hbInterval && Reachable(cfg, s) && Working(cfg, s, p, q, c, name, id)
    requires s.redis.cursor == s.redis.lastId && q in s.procs && s.procs[q] == Proc(c, ReaderIdle)
    requires DataStreamName(cfg.parse, f) == Ok(name)
    ensures Leads(cfg, s, es, s') && Stranded(cfg, s', p, c, name, id)
  {
    hide Reachable, Leads, DataStreamName, LockKey, Apply, Enabled, NoHandle, Finishable;
    var newer := s.redis.lastId + 1;
    var es1, s1 := LockRound(cfg, s, q, c, newer, f, name);
    ReachableLeads(cfg, s, es1, s1);
    var child := NewProc(s1, 0);
    var e := Act(q, Go(0, child));
    RegisterStepIs(cfg, s1, q, c, Message(newer, f), name, child);
    s' := Apply(cfg, s1, e);
    Then(cfg, s, es1, s1, e);
    es := es1 + [e];
    Overwritten(cfg, s1, q, 0, child, id);
    OtherKey(cfg, s, name, id, newer);
  }

  lemma OtherKey(cfg: Config, s: State, name: string, id: Id, newer: Id)
    requires ValidConfig(cfg) && Reachable(cfg, s) && id in s.redis.pel && s.redis.lastId < newer
    ensures LockKey(name, id) != LockKey(name, newer)
  {
    hide Reachable, LockKey;
    Guarantees.ReachableInv(cfg, s);
    if LockKey(name, id) == LockKey(name, newer) {
      LockKeyInjective(name, id, name, newer);
      assert false;
    }
  }

  /**
   From every reachable state, for every client and name: two messages of the name can be read one after the
   other so that the first is stranded. It cannot be finished any more.
   */
  lemma SameNameStrands(cfg: Config, s: State, c: ClientId, f: Fields, g: Fields, name: string)
    returns (es: seq<Event>, s': State, p: ProcId, id: Id)
    requires ValidConfig(cfg) && 0 < cfg.hbInterval && Reachable(cfg, s)
    requires DataStreamName(cfg.parse, f) == Ok(name) && DataStreamName(cfg.parse, g) == Ok(name)
    ensures Leads(cfg, s, es, s') && Inv(cfg, s')
    ensures Stranded(cfg, s', p, c, name, id) && !Finishable(cfg, s', id)
  {
    hide Reachable, Leads, DataStreamName, LockKey, Working, Inv, Finishable, OutOfHands, Untaken;
    var es1, s1, p1, q, id1 := FirstWorks(cfg, s, c, f, name);
    ReachableLeads(cfg, s, es1, s1);
    var es2, s2 := SecondStrands(cfg, s1, p1, q, c, name, id1, g);
    ReachableLeads(cfg, s1, es2, s2);
    Chain(cfg, s, es1, s1, es2, s2);
    Guarantees.ReachableInv(cfg, s2);
    NeverFinished(cfg, s2, id1);
    es, s', p, id := es1 + es2, s2, p1, id1;
  }
}

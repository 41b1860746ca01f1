/**
 The reader and its extenders in the transition system, left alone: working through
 a batch comes to what `processLBSMessages` does, and an extender that has to leave
 forgets its stream.
 */
module Reader {
  import opened Wrappers
  import opened MutexKey
  import opened Redis
  import opened Protocol
  import opened Recovery
  import opened Continuations

  // ---- Working through a batch ----

  /** An extender runs for every message. */
  ghost predicate Extended(cfg: Config, s: State, c: ClientId, batch: seq<Message>) {
    forall i :: 0 <= i < |batch| ==>
      NameIn(cfg, batch[i]).Some? &&
      exists q :: q in s.procs && s.procs[q] == Proc(c, ExtCheck(NameIn(cfg, batch[i]).value, batch[i].id))
  }

  /** The reader `p` has locked and registered the first `n` messages of its batch. */
  ghost predicate Through(cfg: Config, s: State, p: ProcId, batch: seq<Message>, n: nat, s': State)
    requires p in s.procs && n <= |batch|
  {
    var c := s.procs[p].client;
    && LocksTaken(cfg, c, s.redis, batch[..n], s'.redis)
    && BookedLast(cfg, LocalsOf(s, c), batch[..n], LocalsOf(s', c))
    && Extended(cfg, s', c, batch[..n])
    && s'.ledger == s.ledger && s.procs.Keys <= s'.procs.Keys && s'.procs[p].client == c
    && (forall q :: q in s.procs && q != p ==> s'.procs[q] == s.procs[q])
    && (forall d :: d != c ==> LocalsOf(s', d) == LocalsOf(s, d))
  }

  /** The message cannot be registered: no usable name, or its key is there. */
  ghost predicate Refused(cfg: Config, r: Server, m: Message) {
    NameIn(cfg, m).None? || Exists(r, LockKey(NameIn(cfg, m).value, m.id))
  }

  lemma Begin(cfg: Config, s: State, p: ProcId, batch: seq<Message>)
    requires p in s.procs && s.procs[p].phase == Locking(batch)
    ensures Through(cfg, s, p, batch, 0, s)
  {
    hide LocksTaken, BookedLast;
    assert batch[..0] == [];
    NoMessages(cfg, s.procs[p].client, s.redis, LocalsOf(s, s.procs[p].client));
  }

  lemma LockOne(cfg: Config, s: State, p: ProcId, batch: seq<Message>, name: string)
    requires p in s.procs && s.procs[p].phase == Locking(batch) && batch != []
    requires NameIn(cfg, batch[0]) == Some(name) && !Exists(s.redis, LockKey(name, batch[0].id))
    ensures Enabled(s, Act(p, Go(0, 0)))
    ensures Apply(cfg, s, Act(p, Go(0, 0))) ==
            Goto(s.(redis := SetNX(s.redis, LockKey(name, batch[0].id), s.procs[p].client, cfg.hbInterval)), p,
                 Register(name, batch))
  {
    hide LockKey, Exists, SetNX;
  }

  lemma RegisterOne(cfg: Config, s: State, p: ProcId, batch: seq<Message>, name: string, child: ProcId)
    requires p in s.procs && s.procs[p].phase == Register(name, batch) && batch != [] && child !in s.procs
    ensures Enabled(s, Act(p, Go(0, child)))
    ensures var c, s' := s.procs[p].client, Apply(cfg, s, Act(p, Go(0, child)));
            && s'.redis == s.redis && s'.ledger == s.ledger
            && s'.procs == s.procs[p := Proc(c, Locking(batch[1..]))][child := Proc(c, ExtCheck(name, batch[0].id))]
            && LocalsOf(s', c) == LocalsOf(s, c)[name := batch[0].id]
            && forall d :: d != c ==> LocalsOf(s', d) == LocalsOf(s, d)
  {
  }

  lemma StopOne(cfg: Config, s: State, p: ProcId, batch: seq<Message>)
    requires p in s.procs && s.procs[p].phase == Locking(batch)
    requires batch != [] ==> Refused(cfg, s.redis, batch[0])
    ensures Enabled(s, Act(p, Go(0, 0)))
    ensures Apply(cfg, s, Act(p, Go(0, 0))) == Goto(s, p, if batch == [] then ReaderIdle else Ended)
  {
    hide LockKey, Exists;
  }

  lemma ExtendedMore(cfg: Config, s: State, s': State, c: ClientId, batch: seq<Message>, m: Message, child: ProcId)
    requires Extended(cfg, s, c, batch) && NameIn(cfg, m).Some?
    requires child in s'.procs && s'.procs[child] == Proc(c, ExtCheck(NameIn(cfg, m).value, m.id))
    requires forall q :: q in s.procs && s.procs[q].phase.ExtCheck? ==> q in s'.procs && s'.procs[q] == s.procs[q]
    ensures Extended(cfg, s', c, batch + [m])
  {
    hide NameIn;
    var more := batch + [m];
    forall i | 0 <= i < |more| ensures NameIn(cfg, more[i]).Some? &&
      exists q :: q in s'.procs && s'.procs[q] == Proc(c, ExtCheck(NameIn(cfg, more[i]).value, more[i].id))
    {
      if i < |batch| {
        assert more[i] == batch[i];
        var q :| q in s.procs && s.procs[q] == Proc(c, ExtCheck(NameIn(cfg, batch[i]).value, batch[i].id));
        assert q in s'.procs && s'.procs[q] == s.procs[q];
      } else {
        assert more[i] == m;
      }
    }
  }

  /** One message more: Lock, then the registration. */
  lemma OneMore(cfg: Config, s: State, p: ProcId, batch: seq<Message>, n: nat, s1: State)
    returns (es: seq<Event>, s2: State)
    requires p in s.procs && s.procs[p].phase == Locking(batch) && n < |batch|
    requires Through(cfg, s, p, batch, n, s1) && s1.procs[p].phase == Locking(batch[n..])
    requires !Refused(cfg, s1.redis, batch[n])
    ensures Leads(cfg, s1, es, s2) && Through(cfg, s, p, batch, n + 1, s2) && s2.procs[p].phase == Locking(batch[n + 1..])
  {
    hide Leads, LocksTaken, BookedLast, NameIn, LockKey, Exists, SetNX, Apply, Enabled, Extended, LocalsOf;
    var c, m, name := s.procs[p].client, batch[n], NameIn(cfg, batch[n]).value;
    assert batch[n..][0] == m && batch[n..][1..] == batch[n + 1..] && batch[..n] + [m] == batch[..n + 1];
    LockOne(cfg, s1, p, batch[n..], name);
    var t := Apply(cfg, s1, Act(p, Go(0, 0)));
    One(cfg, s1, Act(p, Go(0, 0)));
    assert LocalsOf(t, c) == LocalsOf(s1, c) && forall d :: LocalsOf(t, d) == LocalsOf(s1, d) by { SameLocals(s1, t); }
    var child := NewProc(t, 0);
    RegisterOne(cfg, t, p, batch[n..], name, child);
    s2 := Apply(cfg, t, Act(p, Go(0, child)));
    Then(cfg, s1, [Act(p, Go(0, 0))], t, Act(p, Go(0, child)));
    es := [Act(p, Go(0, 0))] + [Act(p, Go(0, child))];
    OneMoreLock(cfg, c, s.redis, batch[..n], s1.redis, m);
    OneMoreBooked(cfg, LocalsOf(s, c), batch[..n], LocalsOf(s1, c), m);
    ExtendedMore(cfg, s1, s2, c, batch[..n], m, child);
  }

  lemma SameLocals(s: State, t: State)
    requires t.locals == s.locals
    ensures forall d :: LocalsOf(t, d) == LocalsOf(s, d)
  {
  }

  lemma {:induction false} WorksThrough(cfg: Config, s: State, p: ProcId, batch: seq<Message>, n: nat, s1: State)
    returns (es: seq<Event>, s2: State, k: nat)
    requires p in s.procs && s.procs[p].phase == Locking(batch) && n <= |batch|
    requires Through(cfg, s, p, batch, n, s1) && s1.procs[p].phase == Locking(batch[n..])
    ensures n <= k <= |batch| && Leads(cfg, s1, es, s2) && Through(cfg, s, p, batch, k, s2)
    ensures s2.procs[p].phase == Locking(batch[k..]) && (k < |batch| ==> Refused(cfg, s2.redis, batch[k]))
    decreases |batch| - n
  {
    hide Leads, LocksTaken, BookedLast, Extended, LocalsOf, Refused;
    if n == |batch| || Refused(cfg, s1.redis, batch[n]) {
      es, s2, k := [], s1, n;
      Stay(cfg, s1);
    } else {
      var es1, t := OneMore(cfg, s, p, batch, n, s1);
      var es2;
      es2, s2, k := WorksThrough(cfg, s, p, batch, n + 1, t);
      Chain(cfg, s1, es1, t, es2, s2);
      es := es1 + es2;
    }
  }

  /**
   Left alone, a reader locks and registers the messages of its batch in order, with an extender each, and then
   reads again; at the first message without usable name or with its key there it ends.
   */
  lemma ReaderIsProtocol(cfg: Config, s: State, p: ProcId, batch: seq<Message>)
    returns (es: seq<Event>, s': State, n: nat)
    requires p in s.procs && s.procs[p].phase == Locking(batch)
    ensures n <= |batch| && Leads(cfg, s, es, s') && Through(cfg, s, p, batch, n, s')
    ensures s'.procs[p].phase == if n == |batch| then ReaderIdle else Ended
    ensures n < |batch| ==> Refused(cfg, s'.redis, batch[n])
  {
    hide Leads, LocksTaken, BookedLast, Refused, Apply, Enabled, NameIn;
    Begin(cfg, s, p, batch);
    assert batch[0..] == batch;
    var es1, s1, k := WorksThrough(cfg, s, p, batch, 0, s);
    assert k < |batch| ==> batch[k..][0] == batch[k];
    StopOne(cfg, s1, p, batch[k..]);
    s', n := Apply(cfg, s1, Act(p, Go(0, 0))), k;
    Then(cfg, s, es1, s1, Act(p, Go(0, 0)));
    es := es1 + [Act(p, Go(0, 0))];
    SameExtenders(cfg, s1, s', p, s.procs[p].client, batch[..k]);
  }

  lemma SameExtenders(cfg: Config, s: State, s': State, p: ProcId, c: ClientId, batch: seq<Message>)
    requires Extended(cfg, s, c, batch) && p in s.procs && s.procs[p].phase.Locking?
    requires s.procs.Keys <= s'.procs.Keys && forall q :: q in s.procs && q != p ==> s'.procs[q] == s.procs[q]
    ensures Extended(cfg, s', c, batch)
  {
    hide NameIn;
    forall i | 0 <= i < |batch|
      ensures exists q :: q in s'.procs && s'.procs[q] == Proc(c, ExtCheck(NameIn(cfg, batch[i]).value, batch[i].id))
    {
      var q :| q in s.procs && s.procs[q] == Proc(c, ExtCheck(NameIn(cfg, batch[i]).value, batch[i].id));
      assert q in s'.procs && s'.procs[q] == s.procs[q];
    }
  }

  /** A reader ends when a Lock errors and when its context is done while it waits; nothing else changes. */
  lemma ReaderStops(cfg: Config, s: State, p: ProcId, choice: Choice)
    requires p in s.procs
    requires (s.procs[p].phase.Locking? && choice.Fail?) || (s.procs[p].phase.ReaderIdle? && choice.Cancel?)
    ensures Enabled(s, Act(p, choice)) && Apply(cfg, s, Act(p, choice)) == Goto(s, p, Ended)
  {
  }

  // ---- An extender that has to leave ----

  /** The context is done, the stream is no longer registered, or the Extend is refused or errors. */
  predicate MustLeave(s: State, p: ProcId, choice: Choice)
    requires p in s.procs
  {
    var c, ph := s.procs[p].client, s.procs[p].phase;
    || (ph.ExtCheck? && (choice.Cancel? || (choice.Go? && ph.name !in LocalsOf(s, c))))
    || (ph.ExtExtend? && (choice.Fail? || (choice.Go? && !CanExtend(s.redis, LockKey(ph.name, ph.id), c))))
  }

  /** It leaves the server alone, forgets the stream and ends. */
  lemma ExtenderLeaves(cfg: Config, s: State, p: ProcId, choice: Choice)
    requires p in s.procs && MustLeave(s, p, choice)
    ensures Enabled(s, Act(p, choice))
    ensures var s1, go := Apply(cfg, s, Act(p, choice)), Act(p, Go(0, 0));
            && Enabled(s1, go)
            && var s2 := Apply(cfg, s1, go);
               && s2.redis == s.redis && s2.ledger == s.ledger
               && p in s2.procs && s2.procs[p].phase.Ended?
               && LocalsOf(s2, s.procs[p].client) == LocalsOf(s, s.procs[p].client) - {s.procs[p].phase.name}
  {
    hide CanExtend, LockKey;
  }
}

/** What can happen after a given state: events one after the other, and steps that several constructions share. */
module Continuations {
  import opened Redis
  import opened Protocol

  /** The events lead from `s` to `s'`. */
  ghost predicate Leads(cfg: Config, s: State, es: seq<Event>, s': State)
    decreases |es|
  {
    if es == [] then s == s'
    else Enabled(s, es[0]) && Leads(cfg, Apply(cfg, s, es[0]), es[1..], s')
  }

  lemma Stay(cfg: Config, s: State)
    ensures Leads(cfg, s, [], s)
  {
  }

  lemma {:induction false} Chain(cfg: Config, s: State, es: seq<Event>, s1: State, fs: seq<Event>, s2: State)
    requires Leads(cfg, s, es, s1) && Leads(cfg, s1, fs, s2)
    ensures Leads(cfg, s, es + fs, s2)
    decreases |es|
  {
    hide Apply, Enabled;
    if es == [] {
      assert es + fs == fs;
    } else {
      Chain(cfg, Apply(cfg, s, es[0]), es[1..], s1, fs, s2);
      assert (es + fs)[1..] == es[1..] + fs;
    }
  }

  lemma One(cfg: Config, s: State, e: Event)
    requires Enabled(s, e)
    ensures Leads(cfg, s, [e], Apply(cfg, s, e))
  {
    hide Apply, Enabled;
    assert [e][1..] == [];
    Stay(cfg, Apply(cfg, s, e));
  }

  lemma Then(cfg: Config, s: State, es: seq<Event>, s1: State, e: Event)
    requires Leads(cfg, s, es, s1) && Enabled(s1, e)
    ensures Leads(cfg, s, es + [e], Apply(cfg, s1, e))
  {
    hide Leads, Apply, Enabled;
    One(cfg, s1, e);
    Chain(cfg, s, es, s1, [e], Apply(cfg, s1, e));
  }

  /** One more event on a run. */
  lemma ExtendRun(cfg: Config, tr: seq<State>, es: seq<Event>, e: Event) returns (tr': seq<State>, es': seq<Event>)
    requires Run(cfg, tr, es) && Enabled(tr[|es|], e)
    ensures Run(cfg, tr', es') && es' == es + [e] && tr' == tr + [Apply(cfg, tr[|es|], e)]
  {
    hide Apply, Enabled, Init;
    tr', es' := tr + [Apply(cfg, tr[|es|], e)], es + [e];
    forall i | 0 <= i < |es'| ensures Step(cfg, tr'[i], es'[i], tr'[i + 1]) {
      if i < |es| {
        assert Step(cfg, tr[i], es[i], tr[i + 1]);
      }
    }
  }

  lemma ReachableStep(cfg: Config, s: State, e: Event)
    requires Reachable(cfg, s) && Enabled(s, e)
    ensures Reachable(cfg, Apply(cfg, s, e))
  {
    hide Apply, Enabled, Init, Step;
    var tr, es :| Run(cfg, tr, es) && tr[|es|] == s;
    var tr', es' := ExtendRun(cfg, tr, es, e);
    assert tr'[|es'|] == Apply(cfg, s, e);
  }

  lemma {:induction false} ReachableLeads(cfg: Config, s: State, es: seq<Event>, s': State)
    requires Reachable(cfg, s) && Leads(cfg, s, es, s')
    ensures Reachable(cfg, s')
    decreases |es|
  {
    hide Reachable, Apply, Enabled;
    if es != [] {
      ReachableStep(cfg, s, es[0]);
      ReachableLeads(cfg, Apply(cfg, s, es[0]), es[1..], s');
    }
  }

  // ---- New processes ----

  lemma {:induction false} Above(ks: set<ProcId>) returns (b: ProcId)
    ensures forall k :: k in ks ==> k < b
    decreases |ks|
  {
    if ks == {} {
      b := 0;
    } else {
      var k :| k in ks;
      var c := Above(ks - {k});
      b := if c <= k then k + 1 else c;
      forall j | j in ks ensures j < b {
        assert j == k || j in ks - {k};
      }
    }
  }

  /** There is always a process id that is not in use. */
  lemma NewProc(s: State, other: ProcId) returns (p: ProcId)
    ensures p !in s.procs && p != other
  {
    p := Above(s.procs.Keys + {other});
  }

  lemma CanClaim(s: State, p: ProcId, c: ClientId, id: Id)
    requires p !in s.procs
    ensures Enabled(s, StartClaim(p, c, id))
  {
  }

  // ---- Delivery ----

  /** A reader takes everything up to `id`. */
  lemma DeliverStep(cfg: Config, s: State, p: ProcId, id: Id, child: ProcId)
    requires p in s.procs && s.procs[p].phase.ReaderIdle?
    requires s.redis.cursor < id && id in s.redis.entries && id in s.ledger.book
    ensures Enabled(s, Act(p, Go(id, child)))
    ensures var s' := Apply(cfg, s, Act(p, Go(id, child)));
            && s'.redis == s.redis.(cursor := id, pel := s'.redis.pel)
            && s.redis.pel.Keys <= s'.redis.pel.Keys
            && id in s'.redis.pel && s'.redis.pel[id] == Delivery(s.procs[p].client, s.redis.now)
            && s'.locals == s.locals
            && s'.procs == s.procs[p := s.procs[p].(phase := Locking(Batch(s.redis, id)))]
            && s'.ledger == s.ledger.(book := s'.ledger.book) && s'.ledger.book.Keys == s.ledger.book.Keys
            && s'.ledger.book[id] == s.ledger.book[id].(status := Pending)
            && (forall x :: x in s.ledger.book && x !in Undelivered(s.redis, id) ==>
                  s'.ledger.book[x] == s.ledger.book[x])
  {
    hide Batch;
    assert id in Undelivered(s.redis, id);
  }
}

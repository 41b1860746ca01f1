/**
 When the retry limit binds: tasks have a bounded number of copies over all runs
 exactly when MaxRetries is below the 64-bit maximum. At the maximum the counter
 wraps to a negative number, which reads back as 0, and nothing is ever above it.
 */
module RetryLimit {
  import opened Wrappers
  import opened Decimal
  import opened MutexKey
  import opened Entry
  import opened Redis
  import opened Protocol
  import opened Invariant
  import opened Guarantees
  import opened Continuations

  /** Some input field holds a usable data stream name. */
  ghost predicate Accepts(parse: Parser) {
    exists text :: parse(text).Some? && parse(text).value != ""
  }

  ghost predicate Bounded(cfg: Config, b: nat) {
    forall s, t :: Reachable(cfg, s) && IsTask(s, t) ==> |Copies(s, t)| <= b
  }

  // ---- The commands of a re-queue ----

  lemma ReadStep(cfg: Config, s: State, q: ProcId, id: Id, via: Via, name: string)
    requires q in s.procs && s.procs[q].phase == Read(id, via)
    requires id in s.redis.entries && DataStreamName(cfg.parse, s.redis.entries[id]) == Ok(name)
    ensures Enabled(s, Act(q, Go(0, 0)))
    ensures Apply(cfg, s, Act(q, Go(0, 0))) == Goto(s, q, Check(id, via, s.redis.entries[id], name))
  {
    hide DataStreamName;
  }

  lemma CheckStep(cfg: Config, s: State, q: ProcId, id: Id, via: Via, f: Fields, name: string)
    requires q in s.procs && s.procs[q].phase == Check(id, via, f, name)
    requires !Exists(s.redis, LockKey(name, id)) && NextRetry(RetryCount(f)) <= cfg.maxRetries
    ensures Enabled(s, Act(q, Go(0, 0)))
    ensures Apply(cfg, s, Act(q, Go(0, 0))) == Goto(s, q, AckRequeue(id, via, f, NextRetry(RetryCount(f))))
  {
    hide Exists, LockKey, RetryCount, NextRetry;
  }

  lemma AckStep(cfg: Config, s: State, q: ProcId, id: Id, via: Via, f: Fields, count: int)
    requires q in s.procs && s.procs[q].phase == AckRequeue(id, via, f, count) && id in s.redis.pel
    ensures Enabled(s, Act(q, Go(0, 0)))
    ensures Apply(cfg, s, Act(q, Go(0, 0))) == Goto(AckWon(s, q, id, Held), q, Add(id, via, f, count))
  {
    hide AckWon;
  }

  lemma AddStep(cfg: Config, s: State, q: ProcId, id: Id, via: Via, f: Fields, count: int, newId: Id)
    requires q in s.procs && s.procs[q].phase == Add(id, via, f, count) && s.redis.lastId < newId
    ensures Enabled(s, Act(q, Go(newId, 0)))
    ensures Apply(cfg, s, Act(q, Go(newId, 0))) == StepAdd(s, q, id, via, f, count, newId)
  {
    hide StepAdd;
  }

  // ---- One round: deliver, claim, re-queue ----

  /** No lock key is live. */
  ghost predicate Unlocked(r: Server) {
    forall key :: !Exists(r, key)
  }

  /** `id` is the copy of task `t` that waits in the stream, its name parses and no key protects anything. */
  ghost predicate Ready(cfg: Config, s: State, t: Id, id: Id) {
    && Reachable(cfg, s) && IsTask(s, t) && CopyOf(s, t, id)
    && id in s.redis.entries && s.redis.cursor < id
    && DataStreamName(cfg.parse, s.redis.entries[id]).Ok?
    && Unlocked(s.redis)
  }

  lemma DeliverRound(cfg: Config, s: State, id: Id, c: ClientId) returns (es: seq<Event>, s': State)
    requires id in s.redis.entries && s.redis.cursor < id && id in s.ledger.book
    ensures Leads(cfg, s, es, s')
    ensures s'.redis == s.redis.(cursor := id, pel := s'.redis.pel) && id in s'.redis.pel
    ensures s'.ledger == s.ledger.(book := s'.ledger.book) && s'.ledger.book.Keys == s.ledger.book.Keys
    ensures forall x :: x in s.ledger.book ==> s'.ledger.book[x].origin == s.ledger.book[x].origin
  {
    hide Leads, Batch;
    var p := NewProc(s, 0);
    var s1 := Apply(cfg, s, StartReader(p, c));
    One(cfg, s, StartReader(p, c));
    DeliverStep(cfg, s1, p, id, 0);
    Then(cfg, s, [StartReader(p, c)], s1, Act(p, Go(id, 0)));
    es, s' := [StartReader(p, c)] + [Act(p, Go(id, 0))], Apply(cfg, s1, Act(p, Go(id, 0)));
  }

  /** A `Claim` up to its won XACK. */
  lemma ClaimRound(cfg: Config, s: State, id: Id, q: ProcId, c: ClientId, name: string)
    returns (es: seq<Event>, s': State)
    requires id in s.redis.entries && id in s.redis.pel && id in s.ledger.book && q !in s.procs
    requires DataStreamName(cfg.parse, s.redis.entries[id]) == Ok(name) && !Exists(s.redis, LockKey(name, id))
    requires NextRetry(RetryCount(s.redis.entries[id])) <= cfg.maxRetries
    ensures Leads(cfg, s, es, s')
    ensures var f := s.redis.entries[id];
            var via := Claim(id <= s.redis.lastId);
            && q in s'.procs && s'.procs[q].phase == Add(id, via, f, NextRetry(RetryCount(f)))
    ensures s'.redis == XAck(s.redis, id)
    ensures s'.ledger ==
            s.ledger.(book := s.ledger.book[id := s.ledger.book[id].(status := Held, winner := Some(q))])
  {
    hide Leads, DataStreamName, Exists, RetryCount, NextRetry, Go1, LockKey, Enabled;
    var f, go := s.redis.entries[id], Act(q, Go(0, 0));
    var via := Claim(id <= s.redis.lastId);
    var e := StartClaim(q, c, id);
    assert Enabled(s, e) by { CanClaim(s, q, c, id); }
    var s1 := Apply(cfg, s, e);
    One(cfg, s, e);
    ReadStep(cfg, s1, q, id, via, name);
    Then(cfg, s, [e], s1, go);
    var s2 := Apply(cfg, s1, go);
    CheckStep(cfg, s2, q, id, via, f, name);
    Then(cfg, s, [e] + [go], s2, go);
    var s3 := Apply(cfg, s2, go);
    AckStep(cfg, s3, q, id, via, f, NextRetry(RetryCount(f)));
    Then(cfg, s, [e] + [go] + [go], s3, go);
    es, s' := [e] + [go] + [go] + [go], Apply(cfg, s3, go);
  }

  /** The XADD makes one more copy, and that copy waits in the stream. */
  lemma AddRound(cfg: Config, s: State, t: Id, id: Id, q: ProcId, via: Via, f: Fields, count: int)
    returns (newId: Id, s': State)
    requires q in s.procs && s.procs[q].phase == Add(id, via, f, count)
    requires CopyOf(s, t, id) && IsTask(s, t) && s.redis.cursor <= s.redis.lastId
    requires forall x :: x in s.ledger.book ==> x <= s.redis.lastId
    ensures Enabled(s, Act(q, Go(newId, 0))) && s' == Apply(cfg, s, Act(q, Go(newId, 0)))
    ensures IsTask(s', t) && CopyOf(s', t, newId)
    ensures newId in s'.redis.entries && s'.redis.cursor < newId && s'.redis.entries[newId] == RequeueFields(f, count)
    ensures s'.redis.locks == s.redis.locks && s'.redis.now == s.redis.now
    ensures |Copies(s', t)| == |Copies(s, t)| + 1
  {
    hide RequeueFields;
    newId := s.redis.lastId + 1;
    AddStep(cfg, s, q, id, via, f, count, newId);
    s' := StepAdd(s, q, id, via, f, count, newId);
    assert Copies(s', t) == Copies(s, t) + {newId};
  }

  lemma CopiesKept(s: State, s': State, t: Id)
    requires s'.ledger.book.Keys == s.ledger.book.Keys
    requires forall x :: x in s.ledger.book ==> s'.ledger.book[x].origin == s.ledger.book[x].origin
    ensures Copies(s', t) == Copies(s, t)
  {
  }

  /** With MaxRetries at the maximum, a waiting copy can always be followed by another one. */
  lemma Round(cfg: Config, s: State, t: Id, id: Id) returns (id': Id, s': State)
    requires ValidConfig(cfg) && cfg.maxRetries == MAX_INT && Ready(cfg, s, t, id)
    ensures Ready(cfg, s', t, id') && |Copies(s', t)| == |Copies(s, t)| + 1
  {
    hide Reachable, Leads, DataStreamName, RetryCount, RequeueFields, Apply, Enabled, LockKey, Copies, Exists;
    ReachableInv(cfg, s);
    hide HeldInv, LocalsInv, ProcsInv, BookInv, DeadInv, StatusOk;
    var f := s.redis.entries[id];
    var name := DataStreamName(cfg.parse, f).value;
    var es1, s1 := DeliverRound(cfg, s, id, "");
    assert Unlocked(s1.redis) by { SameKeys(s.redis, s1.redis); }
    CopiesKept(s, s1, t);
    var q := NewProc(s1, 0);
    var es2, s2 := ClaimRound(cfg, s1, id, q, "", name);
    assert Unlocked(s2.redis) by { SameKeys(s1.redis, s2.redis); }
    CopiesKept(s1, s2, t);
    Chain(cfg, s, es1, s1, es2, s2);
    var newId, s3 := AddRound(cfg, s2, t, id, q, Claim(id <= s1.redis.lastId), f, NextRetry(RetryCount(f)));
    Then(cfg, s, es1 + es2, s2, Act(q, Go(newId, 0)));
    ReachableLeads(cfg, s, es1 + es2 + [Act(q, Go(newId, 0))], s3);
    RequeueKeepsPayload(f, NextRetry(RetryCount(f)));
    SamePayloadSameName(cfg.parse, RequeueFields(f, NextRetry(RetryCount(f))), f);
    SameKeys(s2.redis, s3.redis);
    id', s' := newId, s3;
  }

  lemma SameKeys(r: Server, r': Server)
    requires Unlocked(r) && r'.locks == r.locks && r'.now == r.now
    ensures Unlocked(r')
  {
    forall key ensures !Exists(r', key) {
      assert !Exists(r, key);
    }
  }

  lemma {:induction false} Rounds(cfg: Config, s: State, t: Id, id: Id, n: nat) returns (s': State)
    requires ValidConfig(cfg) && cfg.maxRetries == MAX_INT && Ready(cfg, s, t, id)
    ensures Reachable(cfg, s') && IsTask(s', t) && |Copies(s', t)| == |Copies(s, t)| + n
    decreases n
  {
    hide Reachable, Copies, Unlocked, DataStreamName, IsTask, CopyOf;
    if n == 0 {
      s' := s;
    } else {
      var id1, s1 := Round(cfg, s, t, id);
      s' := Rounds(cfg, s1, t, id1, n - 1);
    }
  }

  // ---- The exact condition ----

  /** After this long every key has expired. */
  lemma {:induction false} Expiry(keys: set<string>, locks: map<string, Lock>) returns (d: nat)
    requires keys <= locks.Keys
    ensures forall key :: key in keys ==> locks[key].expiresAt <= d
    decreases |keys|
  {
    if keys == {} {
      d := 0;
    } else {
      var k :| k in keys;
      var e := Expiry(keys - {k}, locks);
      d := if e < locks[k].expiresAt then locks[k].expiresAt else e;
      forall key | key in keys ensures locks[key].expiresAt <= d {
        assert key == k || key in keys - {k};
      }
    }
  }

  /** From every reachable state, a task produced there can get more than `n` copies. */
  lemma Unbounded(cfg: Config, s: State, f: Fields, n: nat) returns (t: Id, s': State)
    requires ValidConfig(cfg) && cfg.maxRetries == MAX_INT
    requires Reachable(cfg, s) && DataStreamName(cfg.parse, f).Ok?
    ensures Reachable(cfg, s') && IsTask(s', t) && |Copies(s', t)| > n
  {
    hide Reachable, DataStreamName, Copies, RetryCount;
    ReachableInv(cfg, s);
    hide HeldInv, LocalsInv, ProcsInv, BookInv, DeadInv, StatusOk;
    var d := Expiry(s.redis.locks.Keys, s.redis.locks);
    var s1 := Apply(cfg, s, Tick(d));
    ReachableStep(cfg, s, Tick(d));
    t := s.redis.lastId + 1;
    var s2 := Apply(cfg, s1, Produce(t, f));
    ReachableStep(cfg, s1, Produce(t, f));
    assert Unlocked(s2.redis);
    assert Ready(cfg, s2, t, t);
    s' := Rounds(cfg, s2, t, t, n + 1);
  }

  lemma EmptyReachable(cfg: Config) returns (s: State)
    ensures Reachable(cfg, s)
  {
    s := State(Server(0, 0, map[], 0, map[], map[], []), map[], map[], Ledger(0, map[], map[], []));
    var tr, es: seq<Event> := [s], [];
    assert Run(cfg, tr, es) && tr[|es|] == s;
  }

  /** Without a usable name nothing is ever re-queued. */
  lemma NothingRequeued(cfg: Config, s: State, t: Id)
    requires ValidConfig(cfg) && !Accepts(cfg.parse) && Reachable(cfg, s) && IsTask(s, t)
    ensures Copies(s, t) == {t}
  {
    hide Reachable, RetryCount;
    ReachableInv(cfg, s);
    hide HeldInv, LocalsInv, ProcsInv, RedisInv, DeadInv;
    forall id | id in Copies(s, t) ensures id == t {
      assert RecordOk(cfg, s.ledger, id);
      assert RecordOk(cfg, s.ledger, t);
      NoName(cfg.parse, s.ledger.book[id].fields);
      NoName(cfg.parse, s.ledger.book[t].fields);
    }
  }

  lemma NoName(parse: Parser, f: Fields)
    ensures DataStreamName(parse, f).Ok? ==> Accepts(parse)
  {
  }

  /** Over all runs the number of copies of a task is bounded exactly when MaxRetries leaves room above it. */
  lemma RetryLimitIff(cfg: Config)
    requires ValidConfig(cfg)
    ensures (exists b :: Bounded(cfg, b)) <==> cfg.maxRetries < MAX_INT || !Accepts(cfg.parse)
  {
    hide Reachable, Copies, IsTask, RetryCount;
    if cfg.maxRetries < MAX_INT {
      forall s, t | Reachable(cfg, s) && IsTask(s, t) ensures |Copies(s, t)| <= cfg.maxRetries + 2 {
        RetryBound(cfg, s, t) by { TaskInBook(s, t); }
      }
      assert Bounded(cfg, cfg.maxRetries + 2);
    } else if !Accepts(cfg.parse) {
      forall s, t | Reachable(cfg, s) && IsTask(s, t) ensures |Copies(s, t)| <= 1 {
        NothingRequeued(cfg, s, t);
      }
      assert Bounded(cfg, 1);
    } else {
      var text :| cfg.parse(text).Some? && cfg.parse(text).value != "";
      var f: Fields := map[LBS_INPUT := Str(text)];
      forall b: nat ensures !Bounded(cfg, b) {
        var s := EmptyReachable(cfg);
        var t, s' := Unbounded(cfg, s, f, b);
      }
    }
  }

  lemma TaskInBook(s: State, t: Id)
    requires IsTask(s, t)
    ensures t in s.ledger.book
  {
  }
}

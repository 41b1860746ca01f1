/**
 The recovery code in its own form: `reQueue`, `routeToDLQ`, `Claim`, `DoneStream` and the reconciliation
 pass as methods of a client, run without interference, each proved against the step functions of the
 interleaving model.
 */
module Recovery {
  import opened Wrappers
  import opened Decimal
  import opened MutexKey
  import opened Entry
  import opened Redis
  import opened Protocol
  import opened Invariant
  import opened Witness

  /** Which commands of one call error, and how far the next generated id jumps. */
  datatype Weather = Weather(read: bool, check: bool, ack: bool, add: bool, del: bool, unlock: bool, gap: nat)

  // ---- One call, alone ----

  predicate Errs(ph: Phase, w: Weather) {
    match ph
    case Read(_, _) => w.read
    case Check(_, _, _, _) => w.check
    case Add(_, _, _, _) => w.add
    case AddDead(_, _, _, _, _) => w.add
    case Del(_, _, _) => w.del
    case _ => w.ack
  }

  /** The phase in which a failing command of a recovery leaves its process. */
  function FailedPhase(ph: Phase): Phase {
    match ph
    case Clear(id, via) => Finish(via, id, RqLostRace, false)
    case AddDead(id, via, _, _, _) => Finish(via, id, RqDlq, true)
    case Del(id, via, outcome) => Finish(via, id, outcome, false)
    case _ => if Recovering(ph) then Finish(ph.via, ph.id, RqError, true) else ph
  }

  datatype Lone = Lone(redis: Server, phase: Phase)

  /** One command of a recovery that nobody interferes with. */
  function LoneStep(cfg: Config, m: Lone, w: Weather): Lone {
    if !Recovering(m.phase) then m
    else if Errs(m.phase, w) then m.(phase := FailedPhase(m.phase))
    else Lone(CommandEffect(m.redis, m.phase, m.redis.lastId + 1 + w.gap), NextPhase(cfg, m.redis, m.phase))
  }

  /** A lone step is a step of the interleaving model, seen from the server and from the process. */
  lemma LoneIsProtocol(cfg: Config, s: State, p: ProcId, w: Weather, child: ProcId)
    requires p in s.procs && Recovering(s.procs[p].phase)
    ensures var e := Act(p, if Errs(s.procs[p].phase, w) then Fail else Go(s.redis.lastId + 1 + w.gap, child));
            && Enabled(s, e) && p in Apply(cfg, s, e).procs
            && LoneStep(cfg, Lone(s.redis, s.procs[p].phase), w) ==
               Lone(Apply(cfg, s, e).redis, Apply(cfg, s, e).procs[p].phase)
  {
    hide GoRecover, GoOwn, CommandEffect, NextPhase, Finish;
    FailLeavesRedis(s, p);
    RecoverRedis(cfg, s, p, s.redis.lastId + 1 + w.gap);
    RecoverPhase(cfg, s, p, s.redis.lastId + 1 + w.gap);
  }

  function LoneSteps(cfg: Config, m: Lone, w: Weather, n: nat): Lone
    decreases n
  {
    if n == 0 then m else LoneSteps(cfg, LoneStep(cfg, m, w), w, n - 1)
  }

  /** A whole call takes at most five commands: XRANGE, EXISTS, XACK, XADD, XDEL. */
  function Recover(cfg: Config, r: Server, id: Id, w: Weather): Lone {
    LoneSteps(cfg, Lone(r, Read(id, Claim(true))), w, 5)
  }

  lemma {:induction false} Rests(cfg: Config, m: Lone, w: Weather, n: nat)
    requires !Recovering(m.phase)
    ensures LoneSteps(cfg, m, w, n) == m
  {
    if n > 0 { Rests(cfg, m, w, n - 1); }
  }

  /** A recovery about to XACK: what the call comes to. */
  function AfterAck(cfg: Config, r: Server, ph: Phase, w: Weather): Lone
    requires ph.AckRequeue? || ph.AckDead?
  {
    if w.ack then Lone(r, Finish(ph.via, ph.id, RqError, true))
    else if ph.id !in r.pel then Lone(r, Finish(ph.via, ph.id, RqLostRace, false))
    else
      var acked := XAck(r, ph.id);
      var silent := ph.AckDead? && cfg.dlqStream == "";
      if w.add && !silent then Lone(acked, Finish(ph.via, ph.id, if ph.AckDead? then RqDlq else RqError, true))
      else
        var added :=
          if silent then acked
          else if ph.AckDead? then XAddDead(acked, DeadFields(ph.fields, ph.count, ph.reason))
          else XAdd(acked, acked.lastId + 1 + w.gap, RequeueFields(ph.fields, ph.count));
        Lone(if w.del then added else XDel(added, ph.id),
             Finish(ph.via, ph.id, if ph.AckDead? then RqDlq else RqRequeued, false))
  }

  lemma ThreeSteps(cfg: Config, m: Lone, w: Weather, n: nat)
    requires n >= 3 && !Recovering(LoneStep(cfg, LoneStep(cfg, LoneStep(cfg, m, w), w), w).phase)
    ensures LoneSteps(cfg, m, w, n) == LoneStep(cfg, LoneStep(cfg, LoneStep(cfg, m, w), w), w)
  {
    hide LoneStep;
    var m1 := LoneStep(cfg, m, w);
    var m2 := LoneStep(cfg, m1, w);
    assert LoneSteps(cfg, m, w, n) == LoneSteps(cfg, m1, w, n - 1);
    assert LoneSteps(cfg, m1, w, n - 1) == LoneSteps(cfg, m2, w, n - 2);
    Rests(cfg, LoneStep(cfg, m2, w), w, n - 3);
  }

  lemma AckRequeueTail(cfg: Config, r: Server, ph: Phase, w: Weather)
    requires ph.AckRequeue? && ph.via.Claim?
    ensures LoneStep(cfg, LoneStep(cfg, LoneStep(cfg, Lone(r, ph), w), w), w) == AfterAck(cfg, r, ph, w)
  {
    hide RequeueFields, DeadFields;
    assert r.pel - {ph.id} == r.pel || ph.id in r.pel;
  }

  lemma AckDeadTail(cfg: Config, r: Server, ph: Phase, w: Weather)
    requires ph.AckDead? && ph.via.Claim?
    ensures LoneStep(cfg, LoneStep(cfg, LoneStep(cfg, Lone(r, ph), w), w), w) == AfterAck(cfg, r, ph, w)
  {
    hide RequeueFields, DeadFields;
    assert r.pel - {ph.id} == r.pel || ph.id in r.pel;
  }

  lemma AckTail(cfg: Config, r: Server, ph: Phase, w: Weather, n: nat)
    requires (ph.AckRequeue? || ph.AckDead?) && ph.via.Claim? && n >= 3
    ensures LoneSteps(cfg, Lone(r, ph), w, n) == AfterAck(cfg, r, ph, w)
  {
    hide LoneStep, LoneSteps;
    if ph.AckRequeue? {
      AckRequeueTail(cfg, r, ph, w);
    } else {
      AckDeadTail(cfg, r, ph, w);
    }
    ThreeSteps(cfg, Lone(r, ph), w, n);
  }

  /** A call whose XRANGE has been answered. */
  function AfterEntry(cfg: Config, r: Server, id: Id, w: Weather): Lone {
    var ph := AfterRead(cfg, r, id, Claim(true));
    match ph
    case Clear(_, _) => Lone(if w.ack then r else XAck(r, id), Returned(id, RqLostRace, false))
    case Check(_, _, f, name) =>
      if w.check then Lone(r, Returned(id, RqError, true))
      else
        var ph2 := AfterCheck(cfg, r, id, Claim(true), f, name);
        if ph2.Returned? then Lone(r, ph2) else AfterAck(cfg, r, ph2, w)
    case _ => AfterAck(cfg, r, ph, w)
  }

  /** The five commands of a call, put together. */
  lemma RecoverUnfolds(cfg: Config, r: Server, id: Id, w: Weather)
    ensures Recover(cfg, r, id, w) ==
            if w.read then Lone(r, Returned(id, RqError, true)) else AfterEntry(cfg, r, id, w)
  {
    hide RequeueFields, DeadFields, LockKey, RetryCount, NextRetry, AfterAck, Exists;
    var m0 := Lone(r, Read(id, Claim(true)));
    var m1 := LoneStep(cfg, m0, w);
    assert Recover(cfg, r, id, w) == LoneSteps(cfg, m1, w, 4);
    if !Recovering(m1.phase) {
      Rests(cfg, m1, w, 4);
    } else if m1.phase.AckDead? {
      AckTail(cfg, r, m1.phase, w, 4);
    } else {
      var m2 := LoneStep(cfg, m1, w);
      if !Recovering(m2.phase) {
        Rests(cfg, m2, w, 3);
      } else {
        AckTail(cfg, r, m2.phase, w, 3);
      }
    }
  }

  /** The entry can be recovered: it is gone, cannot be parsed, or its lock key is absent. */
  predicate OwnerDead(cfg: Config, r: Server, id: Id) {
    id in r.entries ==>
      match DataStreamName(cfg.parse, r.entries[id])
      case Err(_) => true
      case Ok(name) => !Exists(r, LockKey(name, id))
  }

  lemma AckEffect(cfg: Config, r: Server, ph: Phase, w: Weather)
    requires (ph.AckRequeue? || ph.AckDead?) && ph.via.Claim?
    ensures var m := AfterAck(cfg, r, ph, w);
            && m.phase.Returned? && m.phase.id == ph.id && !m.phase.outcome.RqSkippedAlive?
            && m.redis.now == r.now && m.redis.cursor == r.cursor && m.redis.locks == r.locks
            && r.lastId <= m.redis.lastId
            && m.redis.pel == (if w.ack then r.pel else r.pel - {ph.id})
            && (m.phase.outcome.RqRequeued? || m.phase.outcome.RqDlq? ==> ph.id in r.pel && !w.ack)
            && (ph.id in r.pel && !w.ack && !w.add && !w.del ==> ph.id !in m.redis.entries)
            && (forall x :: x != ph.id && x <= r.lastId ==>
                  && (x in m.redis.entries <==> x in r.entries)
                  && (x in r.entries ==> m.redis.entries[x] == r.entries[x]))
  {
    hide RequeueFields, DeadFields;
  }

  /** What one call does, whatever errors: it returns, touches only its own id, and with no error takes the id
      out of the pending list exactly when its owner is dead. */
  lemma RecoverEffect(cfg: Config, r: Server, id: Id, w: Weather)
    ensures var m := Recover(cfg, r, id, w);
            && m.phase.Returned? && m.phase.id == id
            && m.redis.now == r.now && m.redis.cursor == r.cursor && m.redis.locks == r.locks
            && r.lastId <= m.redis.lastId
            && (m.redis.pel == r.pel || m.redis.pel == r.pel - {id})
            && (!w.read && !w.check && !w.ack ==> (id in m.redis.pel <==> id in r.pel && !OwnerDead(cfg, r, id)))
            && (m.phase.outcome.RqRequeued? || m.phase.outcome.RqDlq? ==> id in r.pel && id !in m.redis.pel)
            && (m.phase.outcome.RqSkippedAlive? ==> m.redis == r)
            && (id in r.pel && id !in m.redis.pel && !w.add && !w.del ==> id !in m.redis.entries)
  {
    hide LockKey, RetryCount, NextRetry, Recover, AfterAck, Exists;
    RecoverUnfolds(cfg, r, id, w);
    var ph := AfterRead(cfg, r, id, Claim(true));
    if ph.AckDead? {
      AckEffect(cfg, r, ph, w);
    } else if ph.Check? {
      var ph2 := AfterCheck(cfg, r, id, Claim(true), ph.fields, ph.name);
      if !ph2.Returned? {
        AckEffect(cfg, r, ph2, w);
      }
    }
  }

  /** A call leaves every other entry as it was, and adds at most one, under a new id. */
  lemma RecoverEntries(cfg: Config, r: Server, id: Id, w: Weather, x: Id)
    requires x != id && x <= r.lastId
    ensures x in Recover(cfg, r, id, w).redis.entries <==> x in r.entries
    ensures x in r.entries ==> Recover(cfg, r, id, w).redis.entries[x] == r.entries[x]
  {
    hide LockKey, RetryCount, NextRetry, Recover, AfterAck, Exists;
    RecoverUnfolds(cfg, r, id, w);
    var ph := AfterRead(cfg, r, id, Claim(true));
    if ph.AckDead? {
      AckEffect(cfg, r, ph, w);
    } else if ph.Check? {
      var ph2 := AfterCheck(cfg, r, id, Claim(true), ph.fields, ph.name);
      if !ph2.Returned? {
        AckEffect(cfg, r, ph2, w);
      }
    }
  }

  // ---- What a call comes to ----

  /** The entry has a usable name and its counter is below the limit (a counter at the 64-bit maximum wraps). */
  predicate RetryLeft(cfg: Config, f: Fields) {
    DataStreamName(cfg.parse, f).Ok? && (RetryCount(f) < cfg.maxRetries || RetryCount(f) == MAX_INT)
  }

  /** There is something to recover: a pending entry whose owner is dead. */
  predicate Recoverable(cfg: Config, r: Server, id: Id) {
    id in r.pel && id in r.entries && OwnerDead(cfg, r, id)
  }

  /** What a call without errors reports. */
  function Fate(cfg: Config, r: Server, id: Id): Outcome {
    if Recoverable(cfg, r, id) then (if RetryLeft(cfg, r.entries[id]) then RqRequeued else RqDlq)
    else if OwnerDead(cfg, r, id) then RqLostRace
    else RqSkippedAlive
  }

  /** A recovery of this entry that writes its copy or its dead letter meets no error. */
  predicate Unhindered(cfg: Config, f: Fields, w: Weather) {
    && !w.read && !w.ack && (DataStreamName(cfg.parse, f).Ok? ==> !w.check)
    && (RetryLeft(cfg, f) || cfg.dlqStream != "" ==> !w.add)
  }

  /** `r'` is `r` with the task of `id` under a new id, its counter one up, and the old entry deleted or not. */
  ghost predicate ReAdded(r: Server, r': Server, id: Id, f: Fields, count: int, deleted: bool) {
    && r.lastId < r'.lastId && r'.lastId in r'.entries && IsCopy(r'.entries[r'.lastId], f, count)
    && r'.entries - {r'.lastId} == (if deleted then r.entries - {id} else r.entries) - {r'.lastId}
    && r' == r.(pel := r.pel - {id}, lastId := r'.lastId, entries := r'.entries)
  }

  /** `r'` is `r` with the dead letter of `id` written, if there is a dead-letter stream. */
  ghost predicate Buried(cfg: Config, r: Server, r': Server, id: Id, f: Fields, count: int, reason: string,
                         deleted: bool) {
    && r' == r.(pel := r.pel - {id}, entries := if deleted then r.entries - {id} else r.entries, dlq := r'.dlq)
    && if cfg.dlqStream == "" then r'.dlq == r.dlq
       else |r'.dlq| == |r.dlq| + 1 && r'.dlq[..|r.dlq|] == r.dlq && IsLetter(r'.dlq[|r.dlq|], f, count, reason)
  }

  lemma AckRequeueComesTo(cfg: Config, r: Server, id: Id, f: Fields, count: int, w: Weather)
    requires id in r.pel
    ensures var m := AfterAck(cfg, r, AckRequeue(id, Claim(true), f, count), w);
            && (!w.ack && !w.add ==> m.phase == Returned(id, RqRequeued, false))
            && (!w.ack && !w.add && id <= r.lastId ==> ReAdded(r, m.redis, id, f, count, !w.del))
            && (w.ack || w.add ==> m.phase.failed)
  {
    hide RequeueFields, IsCopy;
    RequeueIsCopy(f, count);
  }

  lemma AckDeadComesTo(cfg: Config, r: Server, id: Id, f: Fields, count: int, reason: string, w: Weather)
    requires id in r.pel
    ensures var m := AfterAck(cfg, r, AckDead(id, Claim(true), f, count, reason), w);
            && (!w.ack && (cfg.dlqStream != "" ==> !w.add) ==>
                && m.phase == Returned(id, RqDlq, false)
                && Buried(cfg, r, m.redis, id, f, count, reason, !w.del))
            && (w.ack || (w.add && cfg.dlqStream != "") ==> m.phase.failed)
  {
    hide DeadFields, IsLetter;
    DeadIsLetter(f, count, reason);
  }

  /**
   A call succeeds exactly when there is something to recover and no command it needs errors, XDEL aside. It then
   re-queues the task when a retry is left and dead-letters it otherwise.
   */
  lemma RecoverSucceeds(cfg: Config, r: Server, id: Id, w: Weather)
    requires MIN_INT <= cfg.maxRetries
    ensures var m := Recover(cfg, r, id, w);
            && m.phase.Returned?
            && (!m.phase.failed && (m.phase.outcome.RqRequeued? || m.phase.outcome.RqDlq?) <==>
                Recoverable(cfg, r, id) && Unhindered(cfg, r.entries[id], w))
            && (Recoverable(cfg, r, id) && Unhindered(cfg, r.entries[id], w) ==>
                var f := r.entries[id];
                && m.phase.outcome == Fate(cfg, r, id)
                && (RetryLeft(cfg, f) && id <= r.lastId ==> ReAdded(r, m.redis, id, f, NextRetry(RetryCount(f)), !w.del))
                && (!RetryLeft(cfg, f) ==> Buried(cfg, r, m.redis, id, f, DeadCount(cfg, f), DeadReason(cfg, f), !w.del)))
  {
    hide LockKey, RetryCount, Recover, AfterAck, Exists, DataStreamName, ReAdded, Buried;
    RecoverUnfolds(cfg, r, id, w);
    RecoverEffect(cfg, r, id, w);
    if id in r.pel && id in r.entries {
      var f := r.entries[id];
      AckRequeueComesTo(cfg, r, id, f, NextRetry(RetryCount(f)), w);
      AckDeadComesTo(cfg, r, id, f, DeadCount(cfg, f), DeadReason(cfg, f), w);
    }
  }

  /** What a call reports when no command errors, XDEL aside. */
  lemma RecoverFate(cfg: Config, r: Server, id: Id, w: Weather)
    requires MIN_INT <= cfg.maxRetries && !w.read && !w.check && !w.ack && !w.add
    ensures Recover(cfg, r, id, w).phase == Returned(id, Fate(cfg, r, id), false)
  {
    hide LockKey, RetryCount, Recover, Exists, DataStreamName, RequeueFields, DeadFields;
    RecoverUnfolds(cfg, r, id, w);
  }

  // ---- A delivered batch ----

  function NameIn(cfg: Config, m: Message): Option<string> {
    match DataStreamName(cfg.parse, m.fields)
    case Err(_) => None
    case Ok(name) => Some(name)
  }

  /** The id of the last message with this data stream name. */
  function LastOf(cfg: Config, batch: seq<Message>, name: string): Option<Id> {
    if batch == [] then None
    else
      var m := batch[|batch| - 1];
      if NameIn(cfg, m) == Some(name) then Some(m.id) else LastOf(cfg, batch[..|batch| - 1], name)
  }

  /** The key is the lock key of one of the messages. */
  ghost predicate KeyOf(cfg: Config, batch: seq<Message>, key: string) {
    exists i :: 0 <= i < |batch| && NameIn(cfg, batch[i]).Some? && key == LockKey(NameIn(cfg, batch[i]).value, batch[i].id)
  }

  /** `r` is `r0` with the key of every message held by `c` for a heartbeat interval, and no other change. */
  ghost predicate LocksTaken(cfg: Config, c: ClientId, r0: Server, batch: seq<Message>, r: Server) {
    && r == r0.(locks := r.locks)
    && (forall i :: 0 <= i < |batch| ==> NameIn(cfg, batch[i]).Some?)
    && (forall i :: 0 <= i < |batch| ==>
          var key := LockKey(NameIn(cfg, batch[i]).value, batch[i].id);
          key in r.locks && r.locks[key] == Lock(c, r0.now + cfg.hbInterval))
    && (forall key :: (key in r.locks || key in r0.locks) && !KeyOf(cfg, batch, key) ==>
          key in r.locks && key in r0.locks && r.locks[key] == r0.locks[key])
  }

  /** `b` is `b0` with every name of the batch mapped to the last message of that name. */
  ghost predicate BookedLast(cfg: Config, b0: map<string, Id>, batch: seq<Message>, b: map<string, Id>) {
    forall name ::
      && (name in b <==> name in b0 || LastOf(cfg, batch, name).Some?)
      && (name in b && LastOf(cfg, batch, name).Some? ==> b[name] == LastOf(cfg, batch, name).value)
      && (name in b && LastOf(cfg, batch, name).None? ==> b[name] == b0[name])
  }

  lemma NoMessages(cfg: Config, c: ClientId, r: Server, b: map<string, Id>)
    ensures LocksTaken(cfg, c, r, [], r) && BookedLast(cfg, b, [], b)
  {
  }

  lemma OneMoreLock(cfg: Config, c: ClientId, r0: Server, batch: seq<Message>, r: Server, m: Message)
    requires LocksTaken(cfg, c, r0, batch, r) && NameIn(cfg, m).Some?
    requires !Exists(r, LockKey(NameIn(cfg, m).value, m.id))
    ensures LocksTaken(cfg, c, r0, batch + [m], SetNX(r, LockKey(NameIn(cfg, m).value, m.id), c, cfg.hbInterval))
  {
    hide LockKey, NameIn;
    var key, more := LockKey(NameIn(cfg, m).value, m.id), batch + [m];
    assert more[|batch|] == m && KeyOf(cfg, more, key);
    forall k | KeyOf(cfg, batch, k) ensures KeyOf(cfg, more, k) {
      var i :| 0 <= i < |batch| && NameIn(cfg, batch[i]).Some? && k == LockKey(NameIn(cfg, batch[i]).value, batch[i].id);
      assert more[i] == batch[i];
    }
  }

  lemma OneMoreBooked(cfg: Config, b0: map<string, Id>, batch: seq<Message>, b: map<string, Id>, m: Message)
    requires BookedLast(cfg, b0, batch, b) && NameIn(cfg, m).Some?
    ensures BookedLast(cfg, b0, batch + [m], b[NameIn(cfg, m).value := m.id])
  {
    hide NameIn;
    assert (batch + [m])[..|batch|] == batch;
  }

  /** No message behind position `i` has the name. */
  ghost predicate NoneBehind(cfg: Config, batch: seq<Message>, name: string, i: int) {
    forall j :: 0 <= j < |batch| && i < j ==> NameIn(cfg, batch[j]) != Some(name)
  }

  lemma {:induction false} LastAt(cfg: Config, batch: seq<Message>, name: string) returns (i: int)
    ensures -1 <= i < |batch| && NoneBehind(cfg, batch, name, i)
    ensures LastOf(cfg, batch, name) == if i < 0 then None else Some(batch[i].id)
    ensures i >= 0 ==> NameIn(cfg, batch[i]) == Some(name)
  {
    hide NameIn;
    i := |batch| - 1;
    if batch != [] && NameIn(cfg, batch[i]) != Some(name) {
      var front := batch[..i];
      i := LastAt(cfg, front, name);
      forall j | 0 <= j < |batch| && i < j ensures NameIn(cfg, batch[j]) != Some(name) {
        assert j < |front| ==> front[j] == batch[j];
      }
    }
  }

  /** What `LastOf` finds is a message of that name behind which there is no other. */
  lemma LastOfIsLast(cfg: Config, batch: seq<Message>, name: string)
    ensures LastOf(cfg, batch, name).Some? <==> exists i :: 0 <= i < |batch| && NameIn(cfg, batch[i]) == Some(name)
    ensures LastOf(cfg, batch, name).Some? ==>
      exists i :: 0 <= i < |batch| && NameIn(cfg, batch[i]) == Some(name) && batch[i].id == LastOf(cfg, batch, name).value
        && NoneBehind(cfg, batch, name, i)
  {
    hide NameIn, LastOf;
    var i := LastAt(cfg, batch, name);
  }

  // ---- A reconciliation pass ----

  datatype Tally = Tally(requeued: nat, skippedAlive: nat, dlqRouted: nat)

  /** An erroring call is not counted, whatever its outcome. */
  function Count(t: Tally, outcome: Outcome, failed: bool): Tally {
    if failed then t
    else match outcome
      case RqRequeued => t.(requeued := t.requeued + 1)
      case RqSkippedAlive => t.(skippedAlive := t.skippedAlive + 1)
      case RqDlq => t.(dlqRouted := t.dlqRouted + 1)
      case _ => t
  }

  datatype Passed = Passed(redis: Server, tally: Tally)

  /** Recovering the ids of a page one after the other. */
  function Pass(cfg: Config, r: Server, page: seq<Id>, ws: seq<Weather>): Passed
    requires |page| <= |ws|
  {
    if page == [] then Passed(r, Tally(0, 0, 0))
    else
      var k := |page| - 1;
      var before := Pass(cfg, r, page[..k], ws);
      var m := Recover(cfg, before.redis, page[k], ws[k]);
      Passed(m.redis, if m.phase.Returned? then Count(before.tally, m.phase.outcome, m.phase.failed) else before.tally)
  }

  // ---- A scan of the transition system, left alone, is a pass ----

  /** Commands of one process, each with its own weather. */
  function LoneRun(cfg: Config, m: Lone, sched: seq<Weather>): Lone {
    if sched == [] then m
    else LoneStep(cfg, LoneRun(cfg, m, sched[..|sched| - 1]), sched[|sched| - 1])
  }

  /** The same phase on behalf of a scan; returning means going on with the page. */
  function ScanPhase(ph: Phase, rest: seq<Id>): Phase {
    if Recovering(ph) then ph.(via := Scan(rest)) else NextInPage(rest)
  }

  /** A recovery does the same for a scan as for `Claim`, until it returns: then the scan goes on with its page. */
  function ForScan(m: Lone, rest: seq<Id>): Lone {
    m.(phase := ScanPhase(m.phase, rest))
  }

  lemma ScanEffect(r: Server, ph: Phase, newId: Id, rest: seq<Id>)
    requires Recovering(ph) && r.lastId < newId
    ensures CommandEffect(r, ScanPhase(ph, rest), newId) == CommandEffect(r, ph, newId)
  {
    hide XAdd, XAck, XDel, XAddDead, NextInPage;
  }

  lemma ScanNext(cfg: Config, r: Server, ph: Phase, rest: seq<Id>)
    requires Recovering(ph) && ph.via == Claim(true)
    ensures NextPhase(cfg, r, ScanPhase(ph, rest)) == ScanPhase(NextPhase(cfg, r, ph), rest)
    ensures Recovering(NextPhase(cfg, r, ph)) ==> NextPhase(cfg, r, ph).via == Claim(true)
  {
    hide LockKey, RetryCount, NextRetry, Exists, DataStreamName, NextInPage;
  }

  lemma ScanFails(ph: Phase, w: Weather, rest: seq<Id>)
    requires Recovering(ph) && ph.via == Claim(true)
    ensures Errs(ScanPhase(ph, rest), w) == Errs(ph, w)
    ensures FailedPhase(ScanPhase(ph, rest)) == ScanPhase(FailedPhase(ph), rest)
    ensures !Recovering(FailedPhase(ph))
  {
    hide NextInPage;
  }

  lemma SameForScan(cfg: Config, m: Lone, w: Weather, rest: seq<Id>)
    requires Recovering(m.phase) && m.phase.via == Claim(true)
    ensures LoneStep(cfg, ForScan(m, rest), w) == ForScan(LoneStep(cfg, m, w), rest)
    ensures var m' := LoneStep(cfg, m, w); Recovering(m'.phase) ==> m'.phase.via == Claim(true)
  {
    ScanFails(m.phase, w, rest);
    ScanNext(cfg, m.redis, m.phase, rest);
    ScanEffect(m.redis, m.phase, m.redis.lastId + 1 + w.gap, rest);
    assert Recovering(ScanPhase(m.phase, rest));
    hide Errs, FailedPhase, NextPhase, CommandEffect, ScanPhase;
  }

  lemma {:induction false} EntryDone(cfg: Config, m: Lone, w: Weather, n: nat, rest: seq<Id>) returns (sched: seq<Weather>)
    requires Recovering(m.phase) && m.phase.via == Claim(true) && !Recovering(LoneSteps(cfg, m, w, n).phase)
    ensures LoneRun(cfg, ForScan(m, rest), sched) == Lone(LoneSteps(cfg, m, w, n).redis, NextInPage(rest))
    decreases n
  {
    hide LoneStep, NextInPage, Recovering;
    var m1 := LoneStep(cfg, m, w);
    SameForScan(cfg, m, w, rest);
    assert [w][..0] == [];
    assert LoneRun(cfg, ForScan(m, rest), [w]) == ForScan(m1, rest);
    if Recovering(m1.phase) {
      var more := EntryDone(cfg, m1, w, n - 1, rest);
      LoneRunJoin(cfg, ForScan(m, rest), [w], more);
      sched := [w] + more;
    } else {
      Rests(cfg, m1, w, n - 1);
      sched := [w];
    }
  }

  lemma {:induction false} LoneRunJoin(cfg: Config, m: Lone, a: seq<Weather>, b: seq<Weather>)
    ensures LoneRun(cfg, m, a + b) == LoneRun(cfg, LoneRun(cfg, m, a), b)
    decreases |b|
  {
    hide LoneStep;
    if b == [] {
      assert a + b == a;
    } else {
      LoneRunJoin(cfg, m, a, b[..|b| - 1]);
      assert (a + b)[..|a + b| - 1] == a + b[..|b| - 1];
    }
  }

  /** The steps that a scan takes from XPENDING's page on lead, when nobody interferes, through every id of the
      page in order to the state that the pass computes. */
  lemma {:induction false} ScanIsPass(cfg: Config, r: Server, page: seq<Id>, ws: seq<Weather>, k: nat)
    returns (sched: seq<Weather>)
    requires k <= |page| <= |ws|
    ensures LoneRun(cfg, Lone(r, NextInPage(page)), sched) == Lone(Pass(cfg, r, page[..k], ws).redis, NextInPage(page[k..]))
    decreases k
  {
    hide LoneStep, Recover;
    if k == 0 {
      sched := [];
      assert page[0..] == page;
    } else {
      var before := ScanIsPass(cfg, r, page, ws, k - 1);
      var rk, id, rest := Pass(cfg, r, page[..k - 1], ws).redis, page[k - 1], page[k..];
      assert page[..k][..k - 1] == page[..k - 1];
      assert page[k - 1..][0] == id && page[k - 1..][1..] == rest;
      RecoverEffect(cfg, rk, id, ws[k - 1]);
      RecoverIsSteps(cfg, rk, id, ws[k - 1]);
      var more := EntryDone(cfg, Lone(rk, Read(id, Claim(true))), ws[k - 1], 5, rest);
      LoneRunJoin(cfg, Lone(r, NextInPage(page)), before, more);
      sched := before + more;
    }
  }

  lemma RecoverIsSteps(cfg: Config, r: Server, id: Id, w: Weather)
    ensures Recover(cfg, r, id, w) == LoneSteps(cfg, Lone(r, Read(id, Claim(true))), w, 5)
  {
  }

  /** The three commands of `DoneStream` in the transition system, when nobody comes between them. */
  lemma DoneIsProtocol(cfg: Config, s: State, p: ProcId, name: string, id: Id, any: Id, child: ProcId)
    requires p in s.procs && s.procs[p].phase == DoneAck(name, id)
    ensures var go := Act(p, Go(any, child));
            && Enabled(s, go)
            && Enabled(Apply(cfg, s, go), go)
            && Enabled(Apply(cfg, Apply(cfg, s, go), go), go)
            && Apply(cfg, Apply(cfg, Apply(cfg, s, go), go), go).redis ==
               Unlock(XDel(XAck(s.redis, id), id), LockKey(name, id), s.procs[p].client)
  {
    hide LockKey, Unlock, XAck, XDel, GoRecover;
    AckAbsent(s.redis, id);
  }

  class Client {
    const cfg: Config
    const me: ClientId
    var redis: Server                   // the server, as this client's commands change it
    var streamLocks: map<string, Id>

    constructor (cfg: Config, me: ClientId, redis: Server)
      ensures this.cfg == cfg && this.me == me && this.redis == redis && this.streamLocks == map[]
    {
      this.cfg, this.me, this.redis, this.streamLocks := cfg, me, redis, map[];
    }

    /** XACK; how many ids were acknowledged. */
    method Ack(id: Id) returns (acked: nat)
      modifies this`redis
      ensures redis == XAck(old(redis), id)
      ensures acked == if id in old(redis).pel then 1 else 0
    {
      acked := if id in redis.pel then 1 else 0;
      redis := XAck(redis, id);
    }

    /** `routeToDLQ`: XACK, and if this call won it, the dead letter (when there is a stream for it) and XDEL. */
    method RouteToDLQ(id: Id, f: Fields, count: int, reason: string, w: Weather) returns (outcome: Outcome, failed: bool)
      modifies this`redis
      ensures Lone(redis, Returned(id, outcome, failed)) ==
              AfterAck(cfg, old(redis), AckDead(id, Claim(true), f, count, reason), w)
      ensures w.ack ==> outcome.RqError? && failed && redis == old(redis)
      ensures !w.ack && id !in old(redis).pel ==> outcome.RqLostRace? && !failed && redis == old(redis)
      ensures !w.ack && id in old(redis).pel ==> outcome.RqDlq? && (failed <==> w.add && cfg.dlqStream != "")
      ensures !w.ack && id in old(redis).pel && !failed ==> Buried(cfg, old(redis), redis, id, f, count, reason, !w.del)
      ensures !w.ack && id in old(redis).pel && failed ==> redis == old(redis).(pel := old(redis).pel - {id})
    {
      if w.ack {
        return RqError, true;
      }
      var acked := Ack(id);
      if acked == 0 {
        return RqLostRace, false;
      }
      if cfg.dlqStream != "" {
        var dlqValues := CloneValues(f);
        dlqValues := dlqValues[RETRY_COUNT := Str(Itoa(count))];
        dlqValues := dlqValues[DLQ_REASON := Str(reason)];
        DeadIsLetter(f, count, reason);
        if w.add {
          return RqDlq, true;
        }
        redis := XAddDead(redis, dlqValues);
      }
      if !w.del {
        redis := XDel(redis, id);
      }
      return RqDlq, false;
    }

    /** The last part of `reQueue`: XACK, and if this call won it, XADD and XDEL. */
    method AckAndReAdd(id: Id, f: Fields, next: int, w: Weather) returns (outcome: Outcome, failed: bool)
      modifies this`redis
      ensures Lone(redis, Returned(id, outcome, failed)) ==
              AfterAck(cfg, old(redis), AckRequeue(id, Claim(true), f, next), w)
      ensures w.ack ==> outcome.RqError? && failed && redis == old(redis)
      ensures !w.ack && id !in old(redis).pel ==> outcome.RqLostRace? && !failed && redis == old(redis)
      ensures !w.ack && id in old(redis).pel && w.add ==>
        outcome.RqError? && failed && redis == old(redis).(pel := old(redis).pel - {id})
      ensures !w.ack && id in old(redis).pel && !w.add ==> outcome.RqRequeued? && !failed
      ensures !w.ack && id in old(redis).pel && !w.add && id <= old(redis).lastId ==>
        ReAdded(old(redis), redis, id, f, next, !w.del)
    {
      if w.ack {
        return RqError, true;
      }
      var acked := Ack(id);
      if acked == 0 {
        return RqLostRace, false;
      }
      var newValues := CloneValues(f);
      newValues := newValues[RETRY_COUNT := Str(Itoa(next))];
      RequeueIsCopy(f, next);
      if w.add {
        return RqError, true;
      }
      redis := XAdd(redis, redis.lastId + 1 + w.gap, newValues);
      if !w.del {
        redis := XDel(redis, id);
      }
      return RqRequeued, false;
    }

    /** The recovery primitive shared by the scan and `Claim`. */
    method ReQueue(id: Id, w: Weather) returns (outcome: Outcome, failed: bool)
      modifies this`redis
      ensures Lone(redis, Returned(id, outcome, failed)) == Recover(cfg, old(redis), id, w)
    {
      RecoverUnfolds(cfg, redis, id, w);
      hide Recover, LockKey, RetryCount, Exists, AfterAck;
      if w.read {
        return RqError, true;
      }
      if id !in redis.entries {
        if !w.ack {
          var _ := Ack(id);
        }
        return RqLostRace, false;
      }
      var f := redis.entries[id];
      var named := DataStreamName(cfg.parse, f);
      if named.Err? {
        outcome, failed := RouteToDLQ(id, f, RetryCount(f), REASON_UNPARSEABLE, w);
        return;
      }
      if w.check {
        return RqError, true;
      }
      if Exists(redis, LockKey(named.value, id)) {
        return RqSkippedAlive, false;
      }
      var next := NextRetry(RetryCount(f));
      if next > cfg.maxRetries {
        outcome, failed := RouteToDLQ(id, f, next, REASON_MAX_RETRIES, w);
        return;
      }
      outcome, failed := AckAndReAdd(id, f, next, w);
    }

    /** `Claim`: nil exactly when the entry is pending, its owner is dead and no command that the recovery needs
        errors; the task is then back in the stream with its counter one up, or dead-lettered if no retry was left. */
    method ClaimStream(id: Id, w: Weather) returns (ok: bool)
      modifies this`redis
      ensures redis == Recover(cfg, old(redis), id, w).redis
      ensures ok ==> id in old(redis).pel && id !in redis.pel
      ensures ok <==> var ph := Recover(cfg, old(redis), id, w).phase;
                      ph.Returned? && !ph.failed && (ph.outcome.RqRequeued? || ph.outcome.RqDlq?)
      ensures ValidConfig(cfg) ==>
        (ok <==> Recoverable(cfg, old(redis), id) && Unhindered(cfg, old(redis).entries[id], w))
      ensures ValidConfig(cfg) && id <= old(redis).lastId && ok ==>
        var f := old(redis).entries[id];
        if RetryLeft(cfg, f) then ReAdded(old(redis), redis, id, f, NextRetry(RetryCount(f)), !w.del)
        else Buried(cfg, old(redis), redis, id, f, DeadCount(cfg, f), DeadReason(cfg, f), !w.del)
    {
      hide Recover, ReAdded, Buried, OwnerDead, RetryLeft;
      var outcome, failed := ReQueue(id, w);
      RecoverEffect(cfg, old(redis), id, w);
      if MIN_INT <= cfg.maxRetries {
        RecoverSucceeds(cfg, old(redis), id, w);
      }
      ok := !failed && (outcome.RqRequeued? || outcome.RqDlq?);
    }

    /** `reconcileLBS`: one XPENDING page, each id through `reQueue`; errors are passed over. The context may be
        done before position `cancelAt`. */
    method ReconcileLBS(listFails: bool, ws: seq<Weather>, cancelAt: nat) returns (tally: Tally)
      requires cfg.batchSize <= |ws|
      modifies this`redis
      ensures listFails ==> redis == old(redis) && tally == Tally(0, 0, 0)
      ensures !listFails ==>
        var page := XPending(old(redis), cfg.minIdle, cfg.batchSize);
        Passed(redis, tally) == Pass(cfg, old(redis), if cancelAt < |page| then page[..cancelAt] else page, ws)
    {
      tally := Tally(0, 0, 0);
      if listFails {
        return;
      }
      var pending := XPending(redis, cfg.minIdle, cfg.batchSize);
      hide XPending, Recover;
      for i := 0 to |pending|
        invariant i <= cancelAt
        invariant Passed(redis, tally) == Pass(cfg, old(redis), pending[..i], ws)
      {
        if i == cancelAt {
          return;
        }
        assert pending[..i + 1][..i] == pending[..i];
        RecoverEffect(cfg, redis, pending[i], ws[i]);
        var outcome, failed := ReQueue(pending[i], ws[i]);
        if failed {
          continue;
        }
        match outcome {
          case RqRequeued => tally := tally.(requeued := tally.requeued + 1);
          case RqSkippedAlive => tally := tally.(skippedAlive := tally.skippedAlive + 1);
          case RqDlq => tally := tally.(dlqRouted := tally.dlqRouted + 1);
          case _ =>
        }
      }
      assert pending[..|pending|] == pending;
    }

    /** `processLBSMessages`: lock and register each message, up to the first that cannot be. Every message before
        it holds its lock for a heartbeat interval; `streamLocks` is keyed by data stream name, so of several
        messages with one name it ends up with the last. `lockFails` says at which positions the Lock errors. */
    method ProcessLBSMessages(batch: seq<Message>, lockFails: set<nat>) returns (n: nat, ok: bool)
      modifies this`redis, this`streamLocks
      ensures n <= |batch| && (ok <==> n == |batch|)
      ensures LocksTaken(cfg, me, old(redis), batch[..n], redis)
      ensures BookedLast(cfg, old(streamLocks), batch[..n], streamLocks)
      ensures !ok ==> NameIn(cfg, batch[n]).None? || n in lockFails ||
                      Exists(redis, LockKey(NameIn(cfg, batch[n]).value, batch[n].id))
    {
      hide LockKey, LocksTaken, BookedLast, NameIn, LastOf, Exists;
      n := 0;
      NoMessages(cfg, me, redis, streamLocks);
      while n < |batch|
        invariant n <= |batch|
        invariant LocksTaken(cfg, me, old(redis), batch[..n], redis)
        invariant BookedLast(cfg, old(streamLocks), batch[..n], streamLocks)
      {
        var named := NameIn(cfg, batch[n]);
        if named.None? || n in lockFails {
          return n, false;
        }
        var key := LockKey(named.value, batch[n].id);
        if Exists(redis, key) {
          return n, false;
        }
        assert batch[..n + 1] == batch[..n] + [batch[n]];
        OneMoreLock(cfg, me, old(redis), batch[..n], redis, batch[n]);
        OneMoreBooked(cfg, old(streamLocks), batch[..n], streamLocks, batch[n]);
        redis := SetNX(redis, key, me, cfg.hbInterval);
        streamLocks := streamLocks[named.value := batch[n].id];
        n := n + 1;
      }
      return n, true;
    }

    /** `popStreamLocksInfo`. */
    method PopStreamLocks(name: string) returns (id: Option<Id>)
      modifies this`streamLocks
      ensures streamLocks == old(streamLocks) - {name}
      ensures id == if name in old(streamLocks) then Some(old(streamLocks)[name]) else None
    {
      if name !in streamLocks {
        return None;
      }
      id := Some(streamLocks[name]);
      streamLocks := streamLocks - {name};
    }

    /** `DoneStream`: XACK and XDEL before the unlock. A stream is forgotten even when a command errors; the lock
        is only ever released once the entry is out of the pending list and deleted. */
    method DoneStream(name: string, w: Weather) returns (ok: bool)
      modifies this`redis, this`streamLocks
      ensures streamLocks == old(streamLocks) - {name}
      ensures name !in old(streamLocks) ==> !ok && redis == old(redis)
      ensures name in old(streamLocks) ==>
        var id := old(streamLocks)[name];
        && redis.pel == (if w.ack then old(redis).pel else old(redis).pel - {id})
        && redis.entries == (if w.ack || w.del then old(redis).entries else old(redis).entries - {id})
        && redis == old(redis).(pel := redis.pel, entries := redis.entries, locks := redis.locks)
        && (redis.locks != old(redis).locks ==> id !in redis.pel && id !in redis.entries)
        && (forall key :: key in redis.locks ==> key in old(redis).locks && redis.locks[key] == old(redis).locks[key])
        && (forall key :: key in old(redis).locks && key !in redis.locks ==>
              key == LockKey(name, id) && Exists(old(redis), key) && old(redis).locks[key].owner == me)
        && (ok && Exists(redis, LockKey(name, id)) ==> redis.locks[LockKey(name, id)].owner != me)
        && (ok ==> redis == Unlock(XDel(XAck(old(redis), id), id), LockKey(name, id), me))
        && (ok <==> !w.ack && !w.del && !w.unlock)
    {
      var popped := PopStreamLocks(name);
      if popped.None? {
        return false;
      }
      var id := popped.value;
      if w.ack {
        return false;
      }
      var _ := Ack(id);
      if w.del {
        return false;
      }
      redis := XDel(redis, id);
      if w.unlock {
        return false;
      }
      redis := Unlock(redis, LockKey(name, id), me);
      return true;
    }

    /** `Done`: every stream held when it starts, one `DoneStream` each, up to the first error. */
    method Done(w: map<string, Weather>) returns (ok: bool)
      requires streamLocks.Keys <= w.Keys
      modifies this`redis, this`streamLocks
      ensures ok ==> streamLocks == map[]
      ensures ok ==> forall name :: name in old(streamLocks) ==>
        old(streamLocks)[name] !in redis.pel && old(streamLocks)[name] !in redis.entries
      ensures ok <==> forall name :: name in old(streamLocks) ==> !w[name].ack && !w[name].del && !w[name].unlock
    {
      hide LockKey;
      var names := streamLocks.Keys;
      while names != {}
        invariant names == streamLocks.Keys <= old(streamLocks).Keys
        invariant forall name :: name in names ==> streamLocks[name] == old(streamLocks)[name]
        invariant forall name :: name in old(streamLocks) && name !in names ==>
          old(streamLocks)[name] !in redis.pel && old(streamLocks)[name] !in redis.entries &&
          !w[name].ack && !w[name].del && !w[name].unlock
        decreases |names|
      {
        var name :| name in names;
        var done := DoneStream(name, w[name]);
        if !done {
          return false;
        }
        names := names - {name};
      }
      return true;
    }
  }
}

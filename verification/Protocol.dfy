/**
 The recovery protocol: any number of clients share the server; each call of
 the library is a process whose Redis commands are separate atomic steps, and
 the steps of different processes interleave freely. A client that crashes is
 one whose processes never step again.
 */
module Protocol {
  import opened Wrappers
  import opened Decimal
  import opened MutexKey
  import opened Entry
  import opened Redis

  datatype Config = Config(
    parse: Parser,
    maxRetries: int,
    minIdle: nat,
    batchSize: nat,
    hbInterval: nat,
    dlqStream: string)

  /** `RecoveryConfig.Validate`, and MaxRetries is a 64-bit int. */
  ghost predicate ValidConfig(cfg: Config) {
    0 <= cfg.maxRetries <= MAX_INT && 0 < cfg.minIdle && 0 < cfg.batchSize
  }

  type ProcId = nat

  datatype Outcome = RqError | RqLostRace | RqSkippedAlive | RqRequeued | RqDlq

  /** Who called `reQueue`: a scan with the rest of its page, or `Claim`. `issued` records whether the
      claimed id had been generated when the call began. */
  datatype Via = Scan(rest: seq<Id>) | Claim(issued: bool)

  /** Where a process is: the name says which Redis command (or local step) comes next. */
  datatype Phase =
    | ScanIdle                                            // reconcileLBS: XPENDING
    | Read(id: Id, via: Via)                              // reQueue: XRANGE
    | Clear(id: Id, via: Via)                             // entry gone: XACK, result ignored
    | Check(id: Id, via: Via, fields: Fields, name: string)  // EXISTS
    | AckRequeue(id: Id, via: Via, fields: Fields, count: int)
    | Add(id: Id, via: Via, fields: Fields, count: int)
    | AckDead(id: Id, via: Via, fields: Fields, count: int, reason: string)
    | AddDead(id: Id, via: Via, fields: Fields, count: int, reason: string)
    | Del(id: Id, via: Via, outcome: Outcome)
    | Returned(id: Id, outcome: Outcome, failed: bool)    // Claim is over
    | ReaderIdle                                          // readLBSStream: XREADGROUP
    | Locking(batch: seq<Message>)                        // processLBSMessages: SET NX
    | Register(name: string, batch: seq<Message>)         // write streamLocks, start the extender
    | ExtCheck(name: string, id: Id)                      // startExtendingKey: isStreamProcessingDone
    | ExtExtend(name: string, id: Id)                     // Extend
    | ExtExit(name: string)                               // on the way out: forget the stream if still held
    | DoneAck(name: string, id: Id)                       // DoneStream: XACK
    | DoneDel(name: string, id: Id)                       // XDEL
    | DoneUnlock(name: string, id: Id)                    // Unlock
    | Ended

  /** A stream message as XREADGROUP hands it over. */
  datatype Message = Message(id: Id, fields: Fields)

  datatype Proc = Proc(client: ClientId, phase: Phase)

  // ---- Bookkeeping that no client sees, for stating what happened ----

  /** What became of a generated id. */
  datatype Status =
    | Before                 // generated before the group existed: never delivered
    | Waiting                // in the stream, not delivered yet
    | Pending                // in the pending entries list
    | Held                   // won by a recoverer's XACK, not re-added yet
    | Superseded(newer: Id)  // re-queued under this newer id
    | Finished               // DoneStream's XACK removed it
    | InDlq(at: nat)         // at this position of the dead-letter stream
    | Dropped                // retries exhausted and no dead-letter stream configured
    | Lost                   // XACK won, the XADD after it failed
    | Discarded              // removed by the "entry gone" XACK

  /** `origin` is the id the task was first produced under, `depth` the number of re-queues since then,
      `winner` the process whose XACK took the id out of the pending list. */
  datatype Record = Record(fields: Fields, origin: Id, depth: nat, status: Status, winner: Option<ProcId>)

  datatype Ledger = Ledger(
    base: Id,                  // the group's starting point
    book: map<Id, Record>,     // every id ever generated
    current: map<Id, Id>,      // newest id of each task
    deadFrom: seq<Id>)         // source of each dead letter

  datatype State = State(
    redis: Server,
    procs: map<ProcId, Proc>,
    locals: map<ClientId, map<string, Id>>,   // streamLocks of each client, by data stream name
    ledger: Ledger)

  datatype Choice =
    | Go(newId: Id, child: ProcId)   // the command succeeds; ids for what it may create
    | Fail                           // the command errors and had no effect
    | Cancel                         // the context is done

  datatype Event =
    | Tick(d: nat)
    | Produce(newId: Id, fields: Fields)
    | StartScan(p: ProcId, client: ClientId)
    | StartClaim(p: ProcId, client: ClientId, id: Id)
    | StartReader(p: ProcId, client: ClientId)
    | StartDone(p: ProcId, client: ClientId, name: string)
    | Restart(client: ClientId)
    | Act(p: ProcId, choice: Choice)

  // ---- Helpers ----

  function LocalsOf(s: State, c: ClientId): map<string, Id> {
    if c in s.locals then s.locals[c] else map[]
  }

  function Pop(s: State, c: ClientId, name: string): State {
    s.(locals := s.locals[c := LocalsOf(s, c) - {name}])
  }

  function NextInPage(rest: seq<Id>): Phase {
    if rest == [] then ScanIdle else Read(rest[0], Scan(rest[1..]))
  }

  /** `reQueue` returns to its caller. */
  function Finish(via: Via, id: Id, outcome: Outcome, failed: bool): Phase {
    match via
    case Scan(rest) => NextInPage(rest)
    case Claim(_) => Returned(id, outcome, failed)
  }

  function Goto(s: State, p: ProcId, phase: Phase): State
    requires p in s.procs
  {
    s.(procs := s.procs[p := s.procs[p].(phase := phase)])
  }

  function SetStatus(s: State, id: Id, status: Status): State {
    if id in s.ledger.book
    then s.(ledger := s.ledger.(book := s.ledger.book[id := s.ledger.book[id].(status := status)]))
    else s
  }

  /** An XACK by `p` that took `id` out of the pending list. */
  function AckWon(s: State, p: ProcId, id: Id, status: Status): State {
    var r := s.(redis := XAck(s.redis, id));
    if id in s.ledger.book
    then r.(ledger := s.ledger.(book :=
         s.ledger.book[id := s.ledger.book[id].(status := status, winner := Some(p))]))
    else r
  }

  // ---- reQueue and routeToDLQ, one command at a time ----

  function AfterRead(cfg: Config, r: Server, id: Id, via: Via): Phase {
    if id !in r.entries then Clear(id, via)
    else
      var f := r.entries[id];
      match DataStreamName(cfg.parse, f)
      case Err(_) => AckDead(id, via, f, RetryCount(f), REASON_UNPARSEABLE)
      case Ok(name) => Check(id, via, f, name)
  }

  function AfterCheck(cfg: Config, r: Server, id: Id, via: Via, f: Fields, name: string): Phase {
    if Exists(r, LockKey(name, id)) then Finish(via, id, RqSkippedAlive, false)
    else
      var next := NextRetry(RetryCount(f));
      if next > cfg.maxRetries then AckDead(id, via, f, next, REASON_MAX_RETRIES)
      else AckRequeue(id, via, f, next)
  }

  function StepClear(s: State, p: ProcId, id: Id, via: Via): State
    requires p in s.procs
  {
    var s' := if id in s.redis.pel then AckWon(s, p, id, Discarded) else s;
    Goto(s', p, Finish(via, id, RqLostRace, false))
  }

  function StepAckRequeue(s: State, p: ProcId, id: Id, via: Via, f: Fields, count: int): State
    requires p in s.procs
  {
    if id !in s.redis.pel then Goto(s, p, Finish(via, id, RqLostRace, false))
    else Goto(AckWon(s, p, id, Held), p, Add(id, via, f, count))
  }

  /** The task of `id` goes on under `newId`. */
  function Requeued(l: Ledger, id: Id, newId: Id, copy: Fields): Ledger {
    if id in l.book then
      var r := l.book[id];
      l.(book := l.book[id := r.(status := Superseded(newId))]
                       [newId := Record(copy, r.origin, r.depth + 1, Waiting, None)],
         current := l.current[r.origin := newId])
    else l
  }

  function StepAdd(s: State, p: ProcId, id: Id, via: Via, f: Fields, count: int, newId: Id): State
    requires p in s.procs && s.redis.lastId < newId
  {
    var copy := RequeueFields(f, count);
    var s1 := s.(redis := XAdd(s.redis, newId, copy), ledger := Requeued(s.ledger, id, newId, copy));
    Goto(s1, p, Del(id, via, RqRequeued))
  }

  function StepAckDead(cfg: Config, s: State, p: ProcId, id: Id, via: Via, f: Fields, count: int,
                       reason: string): State
    requires p in s.procs
  {
    if id !in s.redis.pel then Goto(s, p, Finish(via, id, RqLostRace, false))
    else if cfg.dlqStream != "" then Goto(AckWon(s, p, id, Held), p, AddDead(id, via, f, count, reason))
    else Goto(AckWon(s, p, id, Dropped), p, Del(id, via, RqDlq))
  }

  function StepAddDead(s: State, p: ProcId, id: Id, via: Via, f: Fields, count: int, reason: string): State
    requires p in s.procs
  {
    var s1 := SetStatus(s, id, InDlq(|s.redis.dlq|));
    var s2 := s1.(redis := XAddDead(s.redis, DeadFields(f, count, reason)),
                  ledger := s1.ledger.(deadFrom := s.ledger.deadFrom + [id]));
    Goto(s2, p, Del(id, via, RqDlq))
  }

  function StepDel(s: State, p: ProcId, id: Id, phase: Phase): State
    requires p in s.procs
  {
    Goto(s.(redis := XDel(s.redis, id)), p, phase)
  }

  // ---- The reader and the lock extender ----

  /** What XREADGROUP hands over, in stream order. */
  function Batch(r: Server, upTo: Id): (batch: seq<Message>)
    ensures forall m :: m in batch ==> m.id in Undelivered(r, upTo) && m.fields == r.entries[m.id]
  {
    var ids := Ascending(Undelivered(r, upTo), upTo + 1);
    assert forall i :: 0 <= i < |ids| ==> ids[i] in ids;
    seq(|ids|, i requires 0 <= i < |ids| => Message(ids[i], r.entries[ids[i]]))
  }

  function Deliver(l: Ledger, ids: set<Id>): Ledger {
    l.(book := map id | id in l.book :: if id in ids then l.book[id].(status := Pending) else l.book[id])
  }

  function StepReadGroup(s: State, p: ProcId, upTo: Id): State
    requires p in s.procs && s.redis.cursor <= upTo
  {
    var s1 := s.(redis := XReadGroup(s.redis, s.procs[p].client, upTo),
                 ledger := Deliver(s.ledger, Undelivered(s.redis, upTo)));
    Goto(s1, p, Locking(Batch(s.redis, upTo)))
  }

  function StepLock(cfg: Config, s: State, p: ProcId, batch: seq<Message>): State
    requires p in s.procs
  {
    if batch == [] then Goto(s, p, ReaderIdle)
    else match DataStreamName(cfg.parse, batch[0].fields)
      case Err(_) => Goto(s, p, Ended)
      case Ok(name) =>
        var key := LockKey(name, batch[0].id);
        if Exists(s.redis, key) then Goto(s, p, Ended)
        else Goto(s.(redis := SetNX(s.redis, key, s.procs[p].client, cfg.hbInterval)), p,
                  Register(name, batch))
  }

  function StepRegister(s: State, p: ProcId, name: string, batch: seq<Message>, child: ProcId): State
    requires p in s.procs && child !in s.procs && batch != []
  {
    var c := s.procs[p].client;
    var s1 := s.(locals := s.locals[c := LocalsOf(s, c)[name := batch[0].id]]);
    var s2 := Goto(s1, p, Locking(batch[1..]));
    s2.(procs := s2.procs[child := Proc(c, ExtCheck(name, batch[0].id))])
  }

  function StepExtCheck(s: State, p: ProcId, name: string, id: Id): State
    requires p in s.procs
  {
    if name !in LocalsOf(s, s.procs[p].client) then Goto(s, p, ExtExit(name))
    else Goto(s, p, ExtExtend(name, id))
  }

  function StepExtend(cfg: Config, s: State, p: ProcId, name: string, id: Id): State
    requires p in s.procs
  {
    var c := s.procs[p].client;
    var key := LockKey(name, id);
    if CanExtend(s.redis, key, c)
    then Goto(s.(redis := Extend(s.redis, key, c, cfg.hbInterval)), p, ExtCheck(name, id))
    else Goto(s, p, ExtExit(name))
  }

  // ---- DoneStream ----

  function StepDoneAck(s: State, p: ProcId, name: string, id: Id): State
    requires p in s.procs
  {
    var s1 := if id in s.redis.pel then AckWon(s, p, id, Finished) else s;
    Goto(s1, p, DoneDel(name, id))
  }

  function StepUnlock(s: State, p: ProcId, name: string, id: Id): State
    requires p in s.procs
  {
    Goto(s.(redis := Unlock(s.redis, LockKey(name, id), s.procs[p].client)), p, Ended)
  }

  // ---- The transition relation ----

  predicate CanGo(s: State, p: ProcId, newId: Id, child: ProcId)
    requires p in s.procs
  {
    match s.procs[p].phase
    case Add(_, _, _, _) => s.redis.lastId < newId
    case ReaderIdle => s.redis.cursor < newId && newId in s.redis.entries
    case Register(_, batch) => child !in s.procs && batch != []
    case Returned(_, _, _) => false
    case Ended => false
    case _ => true
  }

  /** Inside `reQueue`. */
  predicate Recovering(ph: Phase) {
    ph.Read? || ph.Clear? || ph.Check? || ph.AckRequeue? || ph.Add? || ph.AckDead? || ph.AddDead? || ph.Del?
  }

  /** A command of a scan or of `reQueue` succeeds. */
  function GoRecover(cfg: Config, s: State, p: ProcId, newId: Id): State
    requires p in s.procs && (s.procs[p].phase.Add? ==> s.redis.lastId < newId)
  {
    match s.procs[p].phase
    case ScanIdle => Goto(s, p, NextInPage(XPending(s.redis, cfg.minIdle, cfg.batchSize)))
    case Read(id, via) => Goto(s, p, AfterRead(cfg, s.redis, id, via))
    case Clear(id, via) => StepClear(s, p, id, via)
    case Check(id, via, f, name) => Goto(s, p, AfterCheck(cfg, s.redis, id, via, f, name))
    case AckRequeue(id, via, f, count) => StepAckRequeue(s, p, id, via, f, count)
    case Add(id, via, f, count) => StepAdd(s, p, id, via, f, count, newId)
    case AckDead(id, via, f, count, reason) => StepAckDead(cfg, s, p, id, via, f, count, reason)
    case AddDead(id, via, f, count, reason) => StepAddDead(s, p, id, via, f, count, reason)
    case Del(id, via, outcome) => StepDel(s, p, id, Finish(via, id, outcome, false))
    case _ => s
  }

  /** A command of the reader, an extender or `DoneStream` succeeds. */
  function GoOwn(cfg: Config, s: State, p: ProcId, newId: Id, child: ProcId): State
    requires p in s.procs && CanGo(s, p, newId, child)
  {
    match s.procs[p].phase
    case ReaderIdle => StepReadGroup(s, p, newId)
    case Locking(batch) => StepLock(cfg, s, p, batch)
    case Register(name, batch) => StepRegister(s, p, name, batch, child)
    case ExtCheck(name, id) => StepExtCheck(s, p, name, id)
    case ExtExtend(name, id) => StepExtend(cfg, s, p, name, id)
    case ExtExit(name) => Goto(Pop(s, s.procs[p].client, name), p, Ended)
    case DoneAck(name, id) => StepDoneAck(s, p, name, id)
    case DoneDel(name, id) => StepDel(s, p, id, DoneUnlock(name, id))
    case DoneUnlock(name, id) => StepUnlock(s, p, name, id)
    case _ => s
  }

  function Go1(cfg: Config, s: State, p: ProcId, newId: Id, child: ProcId): State
    requires p in s.procs && CanGo(s, p, newId, child)
  {
    if s.procs[p].phase.ScanIdle? || Recovering(s.procs[p].phase) then GoRecover(cfg, s, p, newId)
    else GoOwn(cfg, s, p, newId, child)
  }

  /** The command errors without effect. */
  function Fail1(s: State, p: ProcId): State
    requires p in s.procs
  {
    match s.procs[p].phase
    case ScanIdle => s
    case Read(id, via) => Goto(s, p, Finish(via, id, RqError, true))
    case Clear(id, via) => Goto(s, p, Finish(via, id, RqLostRace, false))
    case Check(id, via, _, _) => Goto(s, p, Finish(via, id, RqError, true))
    case AckRequeue(id, via, _, _) => Goto(s, p, Finish(via, id, RqError, true))
    case Add(id, via, _, _) => Goto(SetStatus(s, id, Lost), p, Finish(via, id, RqError, true))
    case AckDead(id, via, _, _, _) => Goto(s, p, Finish(via, id, RqError, true))
    case AddDead(id, via, _, _, _) => Goto(SetStatus(s, id, Lost), p, Finish(via, id, RqDlq, true))
    case Del(id, via, outcome) => Goto(s, p, Finish(via, id, outcome, false))
    case ReaderIdle => s
    case Locking(_) => Goto(s, p, Ended)
    case Register(_, _) => s
    case ExtCheck(_, _) => s
    case ExtExtend(name, _) => Goto(s, p, ExtExit(name))
    case ExtExit(_) => s
    case DoneAck(_, _) => Goto(s, p, Ended)
    case DoneDel(_, _) => Goto(s, p, Ended)
    case DoneUnlock(_, _) => Goto(s, p, Ended)
    case Returned(_, _, _) => s
    case Ended => s
  }

  /** The context is done: the reader stops, an extender leaves its loop. */
  function Cancel1(s: State, p: ProcId): State
    requires p in s.procs
  {
    match s.procs[p].phase
    case ReaderIdle => Goto(s, p, Ended)
    case ExtCheck(name, _) => Goto(s, p, ExtExit(name))
    case _ => s
  }

  predicate Enabled(s: State, e: Event) {
    match e
    case Tick(_) => true
    case Produce(newId, _) => s.redis.lastId < newId
    case StartScan(p, _) => p !in s.procs
    case StartClaim(p, _, _) => p !in s.procs
    case StartReader(p, _) => p !in s.procs
    case StartDone(p, c, name) => p !in s.procs && name in LocalsOf(s, c)
    case Restart(_) => true
    case Act(p, choice) => p in s.procs && (choice.Go? ==> CanGo(s, p, choice.newId, choice.child))
  }

  function Spawn(s: State, p: ProcId, c: ClientId, phase: Phase): State {
    s.(procs := s.procs[p := Proc(c, phase)])
  }

  function Apply(cfg: Config, s: State, e: Event): State
    requires Enabled(s, e)
  {
    match e
    case Tick(d) => s.(redis := s.redis.(now := s.redis.now + d))
    case Produce(newId, f) =>
      s.(redis := XAdd(s.redis, newId, f),
         ledger := s.ledger.(book := s.ledger.book[newId := Record(f, newId, 0, Waiting, None)],
                             current := s.ledger.current[newId := newId]))
    case StartScan(p, c) => Spawn(s, p, c, ScanIdle)
    case StartClaim(p, c, id) => Spawn(s, p, c, Read(id, Claim(id <= s.redis.lastId)))
    case StartReader(p, c) => Spawn(s, p, c, ReaderIdle)
    case StartDone(p, c, name) =>
      Spawn(Pop(s, c, name), p, c, DoneAck(name, LocalsOf(s, c)[name]))
    case Restart(c) => s.(locals := s.locals[c := map[]])
    case Act(p, Go(newId, child)) => Go1(cfg, s, p, newId, child)
    case Act(p, Fail) => Fail1(s, p)
    case Act(p, Cancel) => Cancel1(s, p)
  }

  /** The group has just been created with "$": what the stream already holds is never delivered. */
  ghost predicate Init(s: State) {
    && s.redis.cursor == s.redis.lastId == s.ledger.base
    && s.redis.pel == map[] && s.redis.locks == map[] && s.redis.dlq == []
    && s.procs == map[] && s.locals == map[] && s.ledger.deadFrom == []
    && s.ledger.book.Keys == s.redis.entries.Keys == s.ledger.current.Keys
    && forall id :: id in s.redis.entries ==>
         && id <= s.ledger.base
         && s.ledger.book[id] == Record(s.redis.entries[id], id, 0, Before, None)
         && s.ledger.current[id] == id
  }

  ghost predicate Step(cfg: Config, s: State, e: Event, s': State) {
    Enabled(s, e) && s' == Apply(cfg, s, e)
  }

  /** A run: states `tr` linked by events `es`. */
  ghost predicate Run(cfg: Config, tr: seq<State>, es: seq<Event>) {
    && |tr| == |es| + 1
    && Init(tr[0])
    && forall i :: 0 <= i < |es| ==> Step(cfg, tr[i], es[i], tr[i + 1])
  }

  ghost predicate Reachable(cfg: Config, s: State) {
    exists tr, es :: Run(cfg, tr, es) && tr[|es|] == s
  }
}

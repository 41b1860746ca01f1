/** The inductive invariant of the recovery protocol, and what a step may do to it. */
module Invariant {
  import opened Wrappers
  import opened Decimal
  import opened Entry
  import opened Redis
  import opened Protocol

  // ---- Vocabulary ----

  /** Out of the pending list for good. */
  predicate Gone(st: Status) {
    !st.Before? && !st.Waiting? && !st.Pending?
  }

  ghost predicate Delivered(l: Ledger, id: Id) {
    id in l.book && (l.book[id].status.Pending? || Gone(l.book[id].status))
  }

  /** `last` is the largest id generated so far. */
  ghost predicate NeverPending(l: Ledger, last: Id, id: Id) {
    id <= last && (id in l.book ==> !l.book[id].status.Waiting? && !l.book[id].status.Pending?)
  }

  ghost predicate WonBy(l: Ledger, id: Id, p: ProcId) {
    id in l.book && Gone(l.book[id].status) && l.book[id].winner == Some(p)
  }

  /** The field map a process carries is the one the id was generated with. */
  ghost predicate Knows(l: Ledger, id: Id, f: Fields) {
    id in l.book && l.book[id].fields == f
  }

  ghost predicate Named(cfg: Config, l: Ledger, name: string, id: Id) {
    Delivered(l, id) && DataStreamName(cfg.parse, l.book[id].fields) == Ok(name)
  }

  predicate Holding(ph: Phase) { ph.Add? || ph.AddDead? }

  predicate Issued(via: Via) { via.Scan? || via.issued }

  function DeadCount(cfg: Config, f: Fields): int {
    if DataStreamName(cfg.parse, f).Err? then RetryCount(f) else NextRetry(RetryCount(f))
  }

  function DeadReason(cfg: Config, f: Fields): string {
    if DataStreamName(cfg.parse, f).Err? then REASON_UNPARSEABLE else REASON_MAX_RETRIES
  }

  /** The counter and reason of a dead letter made from fields `f`, which has no re-queue left. */
  ghost predicate DeadOk(cfg: Config, f: Fields, count: int, reason: string) {
    && count == DeadCount(cfg, f) && reason == DeadReason(cfg, f)
    && (DataStreamName(cfg.parse, f).Ok? ==> count > cfg.maxRetries)
  }

  ghost predicate RequeueOk(cfg: Config, f: Fields, count: int) {
    && DataStreamName(cfg.parse, f).Ok?
    && count == NextRetry(RetryCount(f)) && count <= cfg.maxRetries
  }

  // ---- The invariant ----

  ghost predicate StatusOk(s: State, id: Id)
    requires id in s.ledger.book
  {
    var r, rec := s.redis, s.ledger.book[id];
    && (rec.winner.Some? <==> Gone(rec.status))
    && match rec.status
       case Before => id <= s.ledger.base
       case Waiting => id in r.entries && r.cursor < id
       case Pending => id in r.pel && id in r.entries && s.ledger.base < id <= r.cursor
       case _ => s.ledger.base < id <= r.cursor
  }

  ghost predicate RedisInv(s: State) {
    var r, book := s.redis, s.ledger.book;
    && s.ledger.base <= r.cursor <= r.lastId
    && (forall id :: id in book ==> id <= r.lastId)
    && (forall id {:trigger StatusOk(s, id)} :: id in book ==> StatusOk(s, id))
    && (forall id :: id in r.entries ==> id in book && book[id].fields == r.entries[id])
    && (forall id :: id in r.pel ==> id in book && book[id].status.Pending?)
  }

  /** A held id has its recoverer. */
  ghost predicate HeldInv(s: State) {
    forall id :: id in s.ledger.book && s.ledger.book[id].status.Held? && s.ledger.book[id].winner.Some? ==>
      var p := s.ledger.book[id].winner.value;
      p in s.procs && Holding(s.procs[p].phase) && s.procs[p].phase.id == id
  }

  ghost predicate ViaOk(l: Ledger, last: Id, id: Id, via: Via) {
    match via
    case Scan(rest) => Delivered(l, id) && forall x :: x in rest ==> Delivered(l, x)
    case Claim(issued) => issued ==> id <= last
  }

  ghost predicate BatchOk(l: Ledger, batch: seq<Message>) {
    forall m :: m in batch ==> Delivered(l, m.id) && Knows(l, m.id, m.fields)
  }

  /** A recovery ended with this outcome because its own XACK won. */
  ghost predicate WonOutcome(l: Ledger, id: Id, p: ProcId, outcome: Outcome) {
    && (outcome.RqRequeued? ==> WonBy(l, id, p) && l.book[id].status.Superseded?)
    && (outcome.RqDlq? ==> WonBy(l, id, p) && (l.book[id].status.InDlq? || l.book[id].status.Dropped?))
  }

  ghost predicate ProcOk(cfg: Config, l: Ledger, last: Id, p: ProcId, ph: Phase) {
    match ph
    case ScanIdle => true
    case Read(id, via) => ViaOk(l, last, id, via)
    case Clear(id, via) => ViaOk(l, last, id, via) && (Issued(via) ==> NeverPending(l, last, id))
    case Check(id, via, f, name) =>
      ViaOk(l, last, id, via) && Knows(l, id, f) && DataStreamName(cfg.parse, f) == Ok(name)
    case AckRequeue(id, via, f, count) => ViaOk(l, last, id, via) && Knows(l, id, f) && RequeueOk(cfg, f, count)
    case Add(id, via, f, count) =>
      && ViaOk(l, last, id, via) && Knows(l, id, f) && RequeueOk(cfg, f, count)
      && WonBy(l, id, p) && l.book[id].status.Held?
    case AckDead(id, via, f, count, reason) =>
      ViaOk(l, last, id, via) && Knows(l, id, f) && DeadOk(cfg, f, count, reason)
    case AddDead(id, via, f, count, reason) =>
      && ViaOk(l, last, id, via) && Knows(l, id, f) && DeadOk(cfg, f, count, reason)
      && WonBy(l, id, p) && l.book[id].status.Held?
    case Del(id, via, outcome) =>
      && ViaOk(l, last, id, via) && WonBy(l, id, p) && WonOutcome(l, id, p, outcome)
      && (outcome.RqRequeued? || outcome.RqDlq?)
    case Returned(id, outcome, failed) => !failed ==> WonOutcome(l, id, p, outcome)
    case ReaderIdle => true
    case Locking(batch) => BatchOk(l, batch)
    case Register(name, batch) =>
      && BatchOk(l, batch) && batch != []
      && DataStreamName(cfg.parse, batch[0].fields) == Ok(name)
    case ExtCheck(name, id) => Named(cfg, l, name, id)
    case ExtExtend(name, id) => Named(cfg, l, name, id)
    case ExtExit(_) => true
    case DoneAck(name, id) => Named(cfg, l, name, id)
    case DoneDel(name, id) => Named(cfg, l, name, id) && Gone(l.book[id].status)
    case DoneUnlock(name, id) => Named(cfg, l, name, id) && Gone(l.book[id].status)
    case Ended => true
  }

  ghost predicate ProcsInv(cfg: Config, s: State) {
    forall p :: p in s.procs ==> ProcOk(cfg, s.ledger, s.redis.lastId, p, s.procs[p].phase)
  }

  ghost predicate LocalsInv(cfg: Config, s: State) {
    forall c, name :: c in s.locals && name in s.locals[c] ==> Named(cfg, s.ledger, name, s.locals[c][name])
  }

  /** The counter read from the copy of a task after `depth` re-queues, when the task began with `first`. */
  function CountAt(first: int, depth: nat): int {
    if depth == 0 then first else if first == MAX_INT then depth - 1 else first + depth
  }

  /** The counter field holds the decimal text of `n`. */
  ghost predicate Prints(f: Fields, n: int) {
    RETRY_COUNT in f && f[RETRY_COUNT] == Str(Itoa(n))
  }

  ghost predicate RecordOk(cfg: Config, l: Ledger, id: Id)
    requires id in l.book
  {
    var r := l.book[id];
    && r.origin in l.book && l.book[r.origin].origin == r.origin && l.book[r.origin].depth == 0
    && (r.depth == 0 <==> r.origin == id)
    && r.origin <= id
    && SamePayload(r.fields, l.book[r.origin].fields)
    && r.origin in l.current && l.current[r.origin] in l.book && l.book[l.current[r.origin]].origin == r.origin
    && (r.status.Superseded? <==> l.current[r.origin] != id)
    && r.depth <= l.book[l.current[r.origin]].depth
    && (r.status.Superseded? ==>
        var n := r.status.newer;
        && id < n && n in l.book && l.book[n].origin == r.origin && l.book[n].depth == r.depth + 1
        && RequeueOk(cfg, r.fields, NextRetry(RetryCount(r.fields)))
        && l.book[n].fields == RequeueFields(r.fields, NextRetry(RetryCount(r.fields))))
    && (cfg.maxRetries < MAX_INT ==>
        && RetryCount(r.fields) == CountAt(RetryCount(l.book[r.origin].fields), r.depth)
        && (r.depth > 0 ==> RetryCount(r.fields) <= cfg.maxRetries)
        && (r.depth > 0 && RetryCount(l.book[r.origin].fields) < MAX_INT ==> Prints(r.fields, RetryCount(r.fields))))
  }

  /** Copies of one task are told apart by their depth. */
  ghost predicate DepthUnique(l: Ledger) {
    forall i, j ::
      (i in l.book && j in l.book && l.book[i].origin == l.book[j].origin && l.book[i].depth == l.book[j].depth)
      ==> i == j
  }

  ghost predicate BookInv(cfg: Config, l: Ledger) {
    && (forall id {:trigger RecordOk(cfg, l, id)} :: id in l.book ==> RecordOk(cfg, l, id))
    && DepthUnique(l)
  }

  /** Position `i` of the dead-letter stream holds the letter of `id`, and `id` had to go there. */
  ghost predicate LetterOk(cfg: Config, l: Ledger, letter: Fields, id: Id, i: nat) {
    && id in l.book && l.book[id].status == InDlq(i)
    && DeadOk(cfg, l.book[id].fields, DeadCount(cfg, l.book[id].fields), DeadReason(cfg, l.book[id].fields))
    && letter == DeadFields(l.book[id].fields, DeadCount(cfg, l.book[id].fields), DeadReason(cfg, l.book[id].fields))
  }

  ghost predicate DeadInv(cfg: Config, s: State) {
    var l := s.ledger;
    && |l.deadFrom| == |s.redis.dlq|
    && (forall i :: 0 <= i < |l.deadFrom| ==> LetterOk(cfg, l, s.redis.dlq[i], l.deadFrom[i], i))
    && (forall id :: id in l.book && l.book[id].status.InDlq? ==>
          l.book[id].status.at < |l.deadFrom| && l.deadFrom[l.book[id].status.at] == id)
  }

  ghost predicate Inv(cfg: Config, s: State) {
    && RedisInv(s) && HeldInv(s) && ProcsInv(cfg, s) && LocalsInv(cfg, s)
    && BookInv(cfg, s.ledger) && DeadInv(cfg, s)
  }

  lemma InitInv(cfg: Config, s: State)
    requires Init(s)
    ensures Inv(cfg, s)
  {
  }

  // ---- What a step of process `p` may do to a record ----

  ghost predicate RecordAdvance(r: Record, r': Record, p: ProcId) {
    && r'.fields == r.fields && r'.origin == r.origin && r'.depth == r.depth
    && ( || (r'.status == r.status && r'.winner == r.winner)
         || (r.status.Waiting? && r'.status.Pending? && r'.winner == r.winner)
         || (r.status.Pending? && Gone(r'.status) && r'.winner == Some(p))
         || (r.status.Held? && Gone(r'.status) && r.winner == Some(p) == r'.winner))
  }

  ghost predicate Advance(s: State, s': State, p: ProcId) {
    && s.redis.lastId <= s'.redis.lastId
    && (forall id :: id in s.ledger.book ==>
          id in s'.ledger.book && RecordAdvance(s.ledger.book[id], s'.ledger.book[id], p))
    && (forall id :: id in s'.ledger.book && id !in s.ledger.book ==> s.redis.lastId < id)
  }

  /** A step of `p` cannot spoil what another process relies on. */
  lemma FrameProc(cfg: Config, s: State, s': State, p: ProcId, q: ProcId, ph: Phase)
    requires Advance(s, s', p) && ProcOk(cfg, s.ledger, s.redis.lastId, q, ph)
    requires p != q || !Holding(ph)
    ensures ProcOk(cfg, s'.ledger, s'.redis.lastId, q, ph)
  {
  }

  lemma FrameLocals(cfg: Config, s: State, s': State, p: ProcId)
    requires Advance(s, s', p) && LocalsInv(cfg, s) && s'.locals == s.locals
    ensures LocalsInv(cfg, s')
  {
  }

  /** Every held id of `s'` is held by its process, once `p` moves on to phase `ph`. */
  ghost predicate HeldAfter(s: State, s': State, p: ProcId, ph: Phase) {
    forall id :: id in s'.ledger.book && s'.ledger.book[id].status.Held? ==>
      if s'.ledger.book[id].winner == Some(p) then Holding(ph) && ph.id == id
      else id in s.ledger.book && s.ledger.book[id] == s'.ledger.book[id]
  }

  lemma HeldKeeps(cfg: Config, s: State, s1: State, p: ProcId, ph: Phase)
    requires HeldInv(s) && p in s.procs && s1.procs == s.procs && HeldAfter(s, s1, p, ph)
    ensures HeldInv(Goto(s1, p, ph))
  {
  }

  lemma RedisFrame(s: State, s': State)
    requires RedisInv(s) && s'.redis == s.redis && s'.ledger == s.ledger
    ensures RedisInv(s')
  {
    forall id | id in s'.ledger.book ensures StatusOk(s', id) {
      assert StatusOk(s, id);
    }
  }

  /** The common shape of an acting process: shared state changes to `s1`, then `p` moves to `ph`. */
  lemma ActKeeps(cfg: Config, s: State, s1: State, p: ProcId, ph: Phase)
    requires Inv(cfg, s) && p in s.procs && s1.procs == s.procs
    requires Advance(s, s1, p) && RedisInv(s1) && LocalsInv(cfg, s1)
    requires BookInv(cfg, s1.ledger) && DeadInv(cfg, s1)
    requires ProcOk(cfg, s1.ledger, s1.redis.lastId, p, ph) && HeldAfter(s, s1, p, ph)
    ensures Inv(cfg, Goto(s1, p, ph))
  {
    var s' := Goto(s1, p, ph);
    forall q | q in s'.procs ensures ProcOk(cfg, s'.ledger, s'.redis.lastId, q, s'.procs[q].phase) {
      if q != p {
        FrameProc(cfg, s, s1, p, q, s.procs[q].phase);
      }
    }
    assert HeldInv(s') by { HeldKeeps(cfg, s, s1, p, ph); }
    assert RedisInv(s') by { RedisFrame(s1, s'); }
  }
}

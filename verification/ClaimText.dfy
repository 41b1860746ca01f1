/**
 `Claim` with the id as the text the caller passes: XRANGE, XACK and XDEL read the
 text as an id (or a range of ids), while the lock key is built from the text
 itself. The call honours the lock of the entry it takes exactly when the text is
 the one Redis prints.
 */
module ClaimText {
  import opened Wrappers
  import opened MutexKey
  import opened Entry
  import opened Redis
  import opened Protocol
  import opened Recovery

  /** How Redis reads a text as an id: the id of XACK and XDEL and the lower end of XRANGE, and the upper end
      of XRANGE, where a text without sequence number stands for the whole millisecond. */
  datatype IdReader = IdReader(resolve: string -> Option<Id>, upTo: string -> Id)

  ghost predicate ReadsIds(rd: IdReader) {
    && (forall id :: rd.resolve(IdText(id)) == Some(id) && rd.upTo(IdText(id)) == id)
    && (forall t, id :: rd.resolve(t) == Some(id) ==> t != "" && id <= rd.upTo(t))
  }

  /** The ids of the entries that XRANGE returns, in order. */
  function InRange(r: Server, lo: Id, hi: Id): seq<Id> {
    Ascending((set x | x in r.entries && lo <= x), hi + 1)
  }

  /** The phase after EXISTS on the key formed from the text. */
  function AfterTextCheck(cfg: Config, r: Server, id: Id, t: string, f: Fields, name: string): Phase {
    if Exists(r, FormMutexKey(LBSInfo(name, t))) then Returned(id, RqSkippedAlive, false)
    else
      var next := NextRetry(RetryCount(f));
      if next > cfg.maxRetries then AckDead(id, Claim(true), f, next, REASON_MAX_RETRIES)
      else AckRequeue(id, Claim(true), f, next)
  }

  /** `reQueue` on a text that reads as `id`, alone; `f` is the first entry found. */
  function TextFound(cfg: Config, r: Server, id: Id, t: string, f: Fields, w: Weather): Lone {
    match DataStreamName(cfg.parse, f)
    case Err(_) => AfterAck(cfg, r, AckDead(id, Claim(true), f, RetryCount(f), REASON_UNPARSEABLE), w)
    case Ok(name) =>
      if CreateByParts(name, t).None? || w.check then Lone(r, Returned(id, RqError, true))
      else
        var ph := AfterTextCheck(cfg, r, id, t, f, name);
        if ph.Returned? then Lone(r, ph) else AfterAck(cfg, r, ph, w)
  }

  /** `reQueue` on any text: `None` when Redis does not take it for an id, so that no command has an effect. */
  function TextCall(cfg: Config, rd: IdReader, r: Server, t: string, w: Weather): Option<Lone> {
    match rd.resolve(t)
    case None => None
    case Some(id) =>
      if w.read then Some(Lone(r, Returned(id, RqError, true)))
      else
        var found := InRange(r, id, rd.upTo(t));
        if found == [] then Some(Lone(if w.ack then r else XAck(r, id), Returned(id, RqLostRace, false)))
        else
          assert found[0] in found;
          Some(TextFound(cfg, r, id, t, r.entries[found[0]], w))
  }

  lemma OneInRange(r: Server, id: Id)
    ensures InRange(r, id, id) == if id in r.entries then [id] else []
  {
    var ids := set x | x in r.entries && id <= x;
    if id in r.entries {
      Single(ids, id + 1, id);
    } else {
      NoneInRange(ids, id + 1);
    }
  }

  lemma {:induction false} NoneInRange(ids: set<Id>, bound: nat)
    requires forall x :: x in ids ==> bound <= x
    ensures Ascending(ids, bound) == []
  {
    if bound > 0 {
      NoneInRange(ids, bound - 1);
    }
  }

  /** When the id itself is in the stream, XRANGE returns it first. */
  lemma OwnFirst(r: Server, id: Id, hi: Id)
    requires id in r.entries && id <= hi
    ensures InRange(r, id, hi) != [] && InRange(r, id, hi)[0] == id
  {
    LeastFirst((set x | x in r.entries && id <= x), hi + 1, id);
  }

  /** On the text Redis prints, the call is the one of the transition system. */
  lemma CanonicalIsRecover(cfg: Config, rd: IdReader, r: Server, id: Id, w: Weather)
    requires ReadsIds(rd)
    ensures TextCall(cfg, rd, r, IdText(id), w) == Some(Recover(cfg, r, id, w))
  {
    hide Recover, AfterAck, DataStreamName, RetryCount, NextRetry, Exists, InRange;
    assert |IdText(id)| > 0;
    hide IdText;
    if id in r.entries {
      NameNotEmpty(cfg.parse, r.entries[id]);
    }
    assert rd.resolve(IdText(id)) == Some(id) && rd.upTo(IdText(id)) == id;
    RecoverUnfolds(cfg, r, id, w);
    OneInRange(r, id);
  }

  /** The entry is pending and its consumer holds its lock. */
  ghost predicate HeldLive(cfg: Config, r: Server, id: Id) {
    && id in r.pel && id in r.entries
    && DataStreamName(cfg.parse, r.entries[id]).Ok?
    && Exists(r, LockKey(DataStreamName(cfg.parse, r.entries[id]).value, id))
  }

  /** Whatever the server holds and whatever errors, a call on this text leaves a live owner's entry pending. */
  ghost predicate HonoursLocks(cfg: Config, rd: IdReader, t: string, id: Id) {
    forall r, w :: HeldLive(cfg, r, id) && TextCall(cfg, rd, r, t, w).Some? ==>
      id in TextCall(cfg, rd, r, t, w).value.redis.pel
  }

  lemma CanonicalHonours(cfg: Config, rd: IdReader, r: Server, id: Id, w: Weather)
    requires ReadsIds(rd) && HeldLive(cfg, r, id)
    ensures TextCall(cfg, rd, r, IdText(id), w).Some?
    ensures id in TextCall(cfg, rd, r, IdText(id), w).value.redis.pel
  {
    hide Recover, AfterAck, RetryCount, NextRetry, Exists, IdText, TextCall, LockKey;
    CanonicalIsRecover(cfg, rd, r, id, w);
    RecoverUnfolds(cfg, r, id, w);
  }

  /** On any other text of the id the call asks for another key: with that one absent it takes the entry, live
      owner or not. */
  lemma OtherTextTakes(cfg: Config, rd: IdReader, r: Server, t: string, id: Id, name: string, w: Weather)
    requires ReadsIds(rd) && rd.resolve(t) == Some(id) && id in r.pel && id in r.entries
    requires DataStreamName(cfg.parse, r.entries[id]) == Ok(name) && !Exists(r, FormMutexKey(LBSInfo(name, t)))
    requires !w.read && !w.check && !w.ack
    ensures TextCall(cfg, rd, r, t, w).Some? && id !in TextCall(cfg, rd, r, t, w).value.redis.pel
  {
    hide AfterAck, RetryCount, NextRetry, Exists, InRange, FormMutexKey;
    OwnFirst(r, id, rd.upTo(t));
    NameNotEmpty(cfg.parse, r.entries[id]);
    AckEffect(cfg, r, AfterTextCheck(cfg, r, id, t, r.entries[id], name), w);
  }

  lemma NameNotEmpty(parse: Parser, f: Fields)
    ensures DataStreamName(parse, f).Ok? ==> DataStreamName(parse, f).value != ""
  {
  }

  lemma OtherKey(name: string, t: string, u: string)
    ensures FormMutexKey(LBSInfo(name, t)) == FormMutexKey(LBSInfo(name, u)) ==> t == u
  {
    assert FormMutexKey(LBSInfo(name, t))[|name + SEP|..] == t;
    assert FormMutexKey(LBSInfo(name, u))[|name + SEP|..] == u;
  }

  /** Any field map of a usable name can be pending with a live lock. */
  lemma HeldSomewhere(cfg: Config, f: Fields, name: string, id: Id) returns (r: Server)
    requires DataStreamName(cfg.parse, f) == Ok(name)
    ensures HeldLive(cfg, r, id) && r.entries[id] == f
    ensures forall key :: Exists(r, key) ==> key == LockKey(name, id)
  {
    hide LockKey, DataStreamName;
    r := Server(0, id, map[id := f], id, map[id := Delivery("", 0)], map[LockKey(name, id) := Lock("", 1)], []);
  }

  /** A call on a text that reads as `id` honours the lock of the entry exactly when it is the text of the id. */
  lemma HonoursLocksIff(cfg: Config, rd: IdReader, t: string, id: Id, f: Fields)
    requires ReadsIds(rd) && rd.resolve(t) == Some(id) && DataStreamName(cfg.parse, f).Ok?
    ensures HonoursLocks(cfg, rd, t, id) <==> t == IdText(id)
  {
    hide HeldLive, TextCall, DataStreamName, Exists, IdText, FormMutexKey, ReadsIds;
    if t == IdText(id) {
      forall r, w | HeldLive(cfg, r, id) && TextCall(cfg, rd, r, t, w).Some?
        ensures id in TextCall(cfg, rd, r, t, w).value.redis.pel
      {
        CanonicalHonours(cfg, rd, r, id, w);
      }
    } else {
      var name := DataStreamName(cfg.parse, f).value;
      var r := HeldSomewhere(cfg, f, name, id);
      OtherKey(name, t, IdText(id));
      LiveIsPending(cfg, r, id);
      OtherTextTakes(cfg, rd, r, t, id, name, Weather(false, false, false, false, false, false, 0));
    }
  }

  lemma LiveIsPending(cfg: Config, r: Server, id: Id)
    requires HeldLive(cfg, r, id)
    ensures id in r.pel && id in r.entries
  {
  }
}

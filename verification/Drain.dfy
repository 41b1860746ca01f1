/**
 How fast reconciliation passes empty the pending list of orphans, and when
 they cannot: a page always holds the smallest idle ids, so entries with a live
 owner take up room on it.
 */
module Drain {
  import opened Entry
  import opened Redis
  import opened MutexKey
  import opened Protocol
  import opened Recovery

  /** Idle entries whose owner is dead: what a pass should recover. */
  ghost function Orphans(cfg: Config, r: Server): set<Id> {
    set id | id in IdleIds(r, cfg.minIdle) && OwnerDead(cfg, r, id)
  }

  /** Idle entries whose owner is alive. */
  ghost function HeldIdle(cfg: Config, r: Server): set<Id> {
    set id | id in IdleIds(r, cfg.minIdle) && !OwnerDead(cfg, r, id)
  }

  /** Pending ids have been generated. */
  ghost predicate PelIssued(r: Server) {
    forall id :: id in r.pel ==> id <= r.lastId
  }

  /** The commands that decide about an entry do not error. */
  predicate Calm(ws: seq<Weather>) {
    forall i :: 0 <= i < |ws| ==> !ws[i].read && !ws[i].check && !ws[i].ack
  }

  function PageOf(cfg: Config, r: Server): seq<Id> {
    XPending(r, cfg.minIdle, cfg.batchSize)
  }

  ghost function IdsOf(page: seq<Id>): set<Id> {
    set id | id in page
  }

  // ---- One pass ----

  /** The id was on the page and its owner was dead when the pass began. */
  ghost predicate Cleared(cfg: Config, r: Server, page: seq<Id>, x: Id) {
    x in page && OwnerDead(cfg, r, x)
  }

  /** `r'` is `r` after recovering the orphans on the page. */
  ghost predicate PassEffect(cfg: Config, r: Server, page: seq<Id>, r': Server) {
    && r'.now == r.now && r'.locks == r.locks && r.lastId <= r'.lastId
    && (forall x :: x in r'.pel <==> x in r.pel && !Cleared(cfg, r, page, x))
    && (forall x :: x in r'.pel ==> r'.pel[x] == r.pel[x])
    && (forall x: Id :: x <= r.lastId && !Cleared(cfg, r, page, x) ==>
          && (x in r'.entries <==> x in r.entries)
          && (x in r.entries ==> r'.entries[x] == r.entries[x]))
  }

  lemma SameVerdict(cfg: Config, r: Server, r': Server, page: seq<Id>, x: Id)
    requires PassEffect(cfg, r, page, r') && x <= r.lastId && !Cleared(cfg, r, page, x)
    ensures OwnerDead(cfg, r', x) == OwnerDead(cfg, r, x)
  {
    hide DataStreamName, LockKey;
  }

  lemma OneMore(cfg: Config, r: Server, page: seq<Id>, rk: Server, x: Id, w: Weather)
    requires PassEffect(cfg, r, page, rk) && PelIssued(r) && x in r.pel && x !in page
    requires !w.read && !w.check && !w.ack
    ensures PassEffect(cfg, r, page + [x], Recover(cfg, rk, x, w).redis)
  {
    hide Recover, OwnerDead;
    var r' := Recover(cfg, rk, x, w).redis;
    SameVerdict(cfg, r, rk, page, x);
    RecoverEffect(cfg, rk, x, w);
    assert forall y :: Cleared(cfg, r, page + [x], y) <==> Cleared(cfg, r, page, y) || (y == x && OwnerDead(cfg, r, x));
    forall y: Id | y <= r.lastId && !Cleared(cfg, r, page + [x], y)
      ensures y in r'.entries <==> y in r.entries
      ensures y in r.entries ==> r'.entries[y] == r.entries[y]
    {
      if y != x {
        RecoverEntries(cfg, rk, x, w, y);
      } else {
        LiveOwnerLeft(cfg, rk, x, w);
      }
    }
  }

  /** A calm call on an entry with a live owner changes nothing. */
  lemma LiveOwnerLeft(cfg: Config, r: Server, id: Id, w: Weather)
    requires !OwnerDead(cfg, r, id) && !w.read && !w.check
    ensures Recover(cfg, r, id, w).redis == r
  {
    hide Recover, LockKey, Exists;
    RecoverUnfolds(cfg, r, id, w);
  }

  lemma {:induction false} PassDoes(cfg: Config, r: Server, page: seq<Id>, ws: seq<Weather>)
    requires PelIssued(r) && Calm(ws) && |page| <= |ws|
    requires forall i :: 0 <= i < |page| ==> page[i] in r.pel
    requires forall i, j :: 0 <= i < j < |page| ==> page[i] != page[j]
    ensures PassEffect(cfg, r, page, Pass(cfg, r, page, ws).redis)
    decreases |page|
  {
    hide Recover, OwnerDead, PassEffect;
    if page == [] {
      Nothing(cfg, r);
    } else {
      var k := |page| - 1;
      PassDoes(cfg, r, page[..k], ws);
      OneMore(cfg, r, page[..k], Pass(cfg, r, page[..k], ws).redis, page[k], ws[k]);
      assert page[..k] + [page[k]] == page;
    }
  }

  lemma Nothing(cfg: Config, r: Server)
    ensures PassEffect(cfg, r, [], r)
  {
    hide OwnerDead;
  }

  lemma PageIsDistinct(cfg: Config, r: Server)
    ensures forall i :: 0 <= i < |PageOf(cfg, r)| ==> PageOf(cfg, r)[i] in IdleIds(r, cfg.minIdle)
    ensures forall i, j :: 0 <= i < j < |PageOf(cfg, r)| ==> PageOf(cfg, r)[i] < PageOf(cfg, r)[j]
  {
    var page := PageOf(cfg, r);
    assert forall i :: 0 <= i < |page| ==> page[i] in page;
  }

  /** A calm pass recovers exactly the orphans on its page, and leaves the live owners' entries alone. */
  lemma PassRecovers(cfg: Config, r: Server, ws: seq<Weather>)
    requires PelIssued(r) && Calm(ws) && cfg.batchSize <= |ws|
    ensures var r' := Pass(cfg, r, PageOf(cfg, r), ws).redis;
            && Orphans(cfg, r') == Orphans(cfg, r) - IdsOf(PageOf(cfg, r))
            && HeldIdle(cfg, r') == HeldIdle(cfg, r)
            && PelIssued(r')
  {
    hide Pass, OwnerDead, PageOf;
    var page := PageOf(cfg, r);
    assert |page| <= cfg.batchSize by { PageLength(cfg, r); }
    PageIsDistinct(cfg, r);
    PassDoes(cfg, r, page, ws);
    var r' := Pass(cfg, r, page, ws).redis;
    forall x | x in r'.pel ensures OwnerDead(cfg, r', x) == OwnerDead(cfg, r, x) {
      SameVerdict(cfg, r, r', page, x);
    }
  }

  lemma PageLength(cfg: Config, r: Server)
    ensures |PageOf(cfg, r)| <= cfg.batchSize
  {
  }

  // ---- The tally ----

  /** No command but XDEL errors. */
  predicate ErrorFree(ws: seq<Weather>) {
    forall i :: 0 <= i < |ws| ==> !ws[i].read && !ws[i].check && !ws[i].ack && !ws[i].add
  }

  /** The ids of the page that a call without errors would report this way when the pass begins. */
  ghost function Fated(cfg: Config, r: Server, page: seq<Id>, o: Outcome): set<Id> {
    set id | id in page && Fate(cfg, r, id) == o
  }

  lemma SameFate(cfg: Config, r: Server, r': Server, page: seq<Id>, x: Id)
    requires PassEffect(cfg, r, page, r') && x <= r.lastId && !Cleared(cfg, r, page, x)
    ensures Fate(cfg, r', x) == Fate(cfg, r, x)
  {
    hide DataStreamName, LockKey, RetryCount, OwnerDead;
    SameVerdict(cfg, r, r', page, x);
  }

  lemma FatedOneMore(cfg: Config, r: Server, page: seq<Id>, x: Id, o: Outcome)
    requires x !in page
    ensures Fated(cfg, r, page + [x], o) == Fated(cfg, r, page, o) + (if Fate(cfg, r, x) == o then {x} else {})
    ensures x !in Fated(cfg, r, page, o)
  {
    hide Fate;
  }

  /** Each counter of an error-free pass is the number of page ids with that fate: owner dead and a retry left,
      owner alive, owner dead and no retry left. */
  lemma {:induction false} PassTally(cfg: Config, r: Server, page: seq<Id>, ws: seq<Weather>)
    requires ValidConfig(cfg) && PelIssued(r) && ErrorFree(ws) && |page| <= |ws|
    requires forall i :: 0 <= i < |page| ==> page[i] in r.pel
    requires forall i, j :: 0 <= i < j < |page| ==> page[i] != page[j]
    ensures Pass(cfg, r, page, ws).tally == Tally(|Fated(cfg, r, page, RqRequeued)|, |Fated(cfg, r, page, RqSkippedAlive)|,
                                                  |Fated(cfg, r, page, RqDlq)|)
    decreases |page|
  {
    hide Recover, Fate, PassEffect, OwnerDead, Fated;
    if page == [] {
      NoneFated(cfg, r);
    } else {
      var k := |page| - 1;
      var front, x := page[..k], page[k];
      PassTally(cfg, r, front, ws);
      PassDoes(cfg, r, front, ws);
      var rk := Pass(cfg, r, front, ws).redis;
      assert x !in front;
      SameFate(cfg, r, rk, front, x) by { assert !Cleared(cfg, r, front, x); }
      RecoverFate(cfg, rk, x, ws[k]);
      assert front + [x] == page;
      FatedOneMore(cfg, r, front, x, RqRequeued);
      FatedOneMore(cfg, r, front, x, RqSkippedAlive);
      FatedOneMore(cfg, r, front, x, RqDlq);
    }
  }

  lemma NoneFated(cfg: Config, r: Server)
    ensures forall o :: Fated(cfg, r, [], o) == {}
  {
    hide Fate;
  }

  // ---- Room on the page ----

  lemma {:induction false} DistinctCount(page: seq<Id>)
    requires forall i, j :: 0 <= i < j < |page| ==> page[i] < page[j]
    ensures |IdsOf(page)| == |page|
  {
    if page != [] {
      var k := |page| - 1;
      DistinctCount(page[..k]);
      assert IdsOf(page) == IdsOf(page[..k]) + {page[k]};
    }
  }

  /** Either every idle id is on the page, or the page is full. */
  lemma PageFull(cfg: Config, r: Server)
    requires PelIssued(r)
    ensures IdsOf(PageOf(cfg, r)) <= IdleIds(r, cfg.minIdle)
    ensures IdsOf(PageOf(cfg, r)) == IdleIds(r, cfg.minIdle) || |IdsOf(PageOf(cfg, r))| == cfg.batchSize
  {
    PageIsDistinct(cfg, r);
    DistinctCount(PageOf(cfg, r));
    var all := Ascending(IdleIds(r, cfg.minIdle), r.lastId + 1);
    assert forall id :: id in all <==> id in IdleIds(r, cfg.minIdle);
  }

  lemma SubsetSize(a: set<Id>, b: set<Id>)
    requires a <= b
    ensures |a| <= |b|
  {
    assert b == a + (b - a);
  }

  lemma SplitSize(a: set<Id>, b: set<Id>)
    ensures |a| == |a * b| + |a - b|
  {
    assert a == (a * b) + (a - b);
  }

  /** One pass with room for more than the live entries lowers the number of orphans by that room. */
  lemma PassDrains(cfg: Config, r: Server, ws: seq<Weather>)
    requires PelIssued(r) && Calm(ws) && cfg.batchSize <= |ws| && |HeldIdle(cfg, r)| < cfg.batchSize
    ensures var room := cfg.batchSize - |HeldIdle(cfg, r)|;
            var r' := Pass(cfg, r, PageOf(cfg, r), ws).redis;
            |Orphans(cfg, r')| <= if |Orphans(cfg, r)| <= room then 0 else |Orphans(cfg, r)| - room
  {
    hide Pass, PageOf, OwnerDead, IdleIds;
    var page, o, h := IdsOf(PageOf(cfg, r)), Orphans(cfg, r), HeldIdle(cfg, r);
    PassRecovers(cfg, r, ws);
    PageFull(cfg, r);
    SplitSize(o, page);
    if page == IdleIds(r, cfg.minIdle) {
      assert o - page == {};
    } else {
      SplitSize(page, o);
      assert page * o == o * page;
      assert page - o <= h;
      SubsetSize(page - o, h);
    }
  }

  /** Between passes: nothing is delivered or finished, no entry turns idle, no owner dies or revives. */
  ghost predicate Quiet(cfg: Config, r: Server, r': Server) {
    && r'.pel == r.pel && PelIssued(r')
    && IdleIds(r', cfg.minIdle) == IdleIds(r, cfg.minIdle)
    && forall id :: id in r.pel ==> OwnerDead(cfg, r', id) == OwnerDead(cfg, r, id)
  }

  /** `rs[i]` is the server before pass `i`. */
  ghost predicate Passes(cfg: Config, rs: seq<Server>, wss: seq<seq<Weather>>) {
    && |rs| == |wss| + 1 && PelIssued(rs[0])
    && (forall i :: 0 <= i < |wss| ==> Calm(wss[i]) && cfg.batchSize <= |wss[i]|)
    && (forall i :: 0 <= i < |wss| ==> |PageOf(cfg, rs[i])| <= |wss[i]|)
    && (forall i :: 0 <= i < |wss| ==> Quiet(cfg, Pass(cfg, rs[i], PageOf(cfg, rs[i]), wss[i]).redis, rs[i + 1]))
  }

  lemma QuietKeeps(cfg: Config, r: Server, r': Server)
    requires Quiet(cfg, r, r')
    ensures Orphans(cfg, r') == Orphans(cfg, r) && HeldIdle(cfg, r') == HeldIdle(cfg, r)
  {
    hide OwnerDead;
    assert forall id :: id in IdleIds(r, cfg.minIdle) ==> id in r.pel;
  }

  /** Every pass removes as many orphans as the page has room beside the live entries, until none is left. */
  lemma {:induction false} DrainBound(cfg: Config, rs: seq<Server>, wss: seq<seq<Weather>>, n: nat)
    requires Passes(cfg, rs, wss) && n <= |wss| && |HeldIdle(cfg, rs[0])| < cfg.batchSize
    ensures HeldIdle(cfg, rs[n]) == HeldIdle(cfg, rs[0]) && PelIssued(rs[n])
    ensures var done := n * (cfg.batchSize - |HeldIdle(cfg, rs[0])|);
            |Orphans(cfg, rs[n])| <= if |Orphans(cfg, rs[0])| <= done then 0 else |Orphans(cfg, rs[0])| - done
  {
    hide Pass, PageOf, OwnerDead, IdleIds, Quiet, HeldIdle, Orphans;
    if n > 0 {
      DrainBound(cfg, rs, wss, n - 1);
      var k := n - 1;
      assert Quiet(cfg, Pass(cfg, rs[k], PageOf(cfg, rs[k]), wss[k]).redis, rs[k + 1]);
      PassDrains(cfg, rs[k], wss[k]);
      PassRecovers(cfg, rs[k], wss[k]);
      QuietKeeps(cfg, Pass(cfg, rs[k], PageOf(cfg, rs[k]), wss[k]).redis, rs[n]);
      QuietIssued(cfg, Pass(cfg, rs[k], PageOf(cfg, rs[k]), wss[k]).redis, rs[n]);
      var room := cfg.batchSize - |HeldIdle(cfg, rs[0])|;
      assert n * room == k * room + room;
    }
  }

  lemma QuietIssued(cfg: Config, r: Server, r': Server)
    requires Quiet(cfg, r, r')
    ensures PelIssued(r')
  {
  }

  /** ceil(N / (B - L)) passes leave no orphan pending. */
  lemma DrainsInCeil(cfg: Config, rs: seq<Server>, wss: seq<seq<Weather>>)
    requires Passes(cfg, rs, wss) && |HeldIdle(cfg, rs[0])| < cfg.batchSize
    requires var room := cfg.batchSize - |HeldIdle(cfg, rs[0])|; |wss| == (|Orphans(cfg, rs[0])| + room - 1) / room
    ensures Orphans(cfg, rs[|wss|]) == {}
  {
    hide Pass, PageOf, Quiet, OwnerDead, IdleIds, HeldIdle, Orphans;
    var room := cfg.batchSize - |HeldIdle(cfg, rs[0])|;
    var total := |Orphans(cfg, rs[0])|;
    DrainBound(cfg, rs, wss, |wss|);
    assert |wss| * room >= total by { CeilCovers(total, room); }
  }

  lemma CeilCovers(total: nat, room: nat)
    requires room > 0
    ensures ((total + room - 1) / room) * room >= total
  {
    var q := (total + room - 1) / room;
    assert total + room - 1 == q * room + (total + room - 1) % room;
  }

  // ---- When a pass makes no headway ----

  ghost function Below(ids: set<Id>, x: Id): set<Id> {
    set id | id in ids && id < x
  }

  /** In an ascending listing an id stands behind exactly the smaller ids. */
  lemma {:induction false} AscendingRank(ids: set<Id>, bound: nat, i: nat)
    requires i < |Ascending(ids, bound)|
    ensures |Below(ids, Ascending(ids, bound)[i])| == i
  {
    var s := Ascending(ids, bound);
    assert IdsOf(s[..i]) == Below(ids, s[i]) by {
      assert forall j :: 0 <= j < |s| ==> s[j] in s;
      forall x | x in Below(ids, s[i]) ensures x in s[..i] {
        assert s[i] in s;
        assert x in s;
        var j :| 0 <= j < |s| && s[j] == x;
      }
    }
    DistinctCount(s[..i]);
  }

  /** An idle id is on the page exactly when fewer than BatchSize idle ids are smaller. */
  lemma OnPageIff(cfg: Config, r: Server, x: Id)
    requires PelIssued(r) && x in IdleIds(r, cfg.minIdle)
    ensures x in PageOf(cfg, r) <==> |Below(IdleIds(r, cfg.minIdle), x)| < cfg.batchSize
  {
    var idle := IdleIds(r, cfg.minIdle);
    var all := Ascending(idle, r.lastId + 1);
    assert x in all;
    var i :| 0 <= i < |all| && all[i] == x;
    AscendingRank(idle, r.lastId + 1, i);
  }

  /**
   A calm pass makes headway exactly when fewer than BatchSize live entries stand before the first orphan.
   Otherwise every later pass sees the same page and the orphans stay pending.
   */
  lemma PassProgress(cfg: Config, r: Server, ws: seq<Weather>, first: Id)
    requires PelIssued(r) && Calm(ws) && cfg.batchSize <= |ws|
    requires first in Orphans(cfg, r) && forall o :: o in Orphans(cfg, r) ==> first <= o
    ensures Orphans(cfg, Pass(cfg, r, PageOf(cfg, r), ws).redis) != Orphans(cfg, r) <==>
            |Below(HeldIdle(cfg, r), first)| < cfg.batchSize
  {
    hide Pass, PageOf, OwnerDead;
    var idle := IdleIds(r, cfg.minIdle);
    PassRecovers(cfg, r, ws);
    OnPageIff(cfg, r, first);
    assert forall x :: x in Below(idle, first) ==> x !in Orphans(cfg, r);
    assert Below(HeldIdle(cfg, r), first) == Below(idle, first);
    forall o | o in Orphans(cfg, r) && o in PageOf(cfg, r) ensures first in PageOf(cfg, r) {
      OnPageIff(cfg, r, o);
      SubsetSize(Below(idle, first), Below(idle, o));
    }
  }

  /** Starvation: with BatchSize live entries before the first orphan, no number of passes recovers anything. */
  lemma {:induction false} Starved(cfg: Config, rs: seq<Server>, wss: seq<seq<Weather>>, n: nat, first: Id)
    requires Passes(cfg, rs, wss) && n <= |wss|
    requires first in Orphans(cfg, rs[0]) && forall o :: o in Orphans(cfg, rs[0]) ==> first <= o
    requires |Below(HeldIdle(cfg, rs[0]), first)| >= cfg.batchSize
    ensures Orphans(cfg, rs[n]) == Orphans(cfg, rs[0]) && HeldIdle(cfg, rs[n]) == HeldIdle(cfg, rs[0])
    ensures PelIssued(rs[n])
  {
    hide Pass, PageOf, OwnerDead, IdleIds, Quiet, HeldIdle, Orphans, Below;
    if n > 0 {
      Starved(cfg, rs, wss, n - 1, first);
      var k := n - 1;
      assert Quiet(cfg, Pass(cfg, rs[k], PageOf(cfg, rs[k]), wss[k]).redis, rs[k + 1]);
      PassProgress(cfg, rs[k], wss[k], first);
      PassRecovers(cfg, rs[k], wss[k]);
      QuietKeeps(cfg, Pass(cfg, rs[k], PageOf(cfg, rs[k]), wss[k]).redis, rs[n]);
      QuietIssued(cfg, Pass(cfg, rs[k], PageOf(cfg, rs[k]), wss[k]).redis, rs[n]);
    }
  }
}

/**
 The per-master keyspace subscriptions of ClusterModeOSS: opened by `Init`,
 rebuilt by `ReinitTopology`, closed by `Done`.
 */
module Subscriptions {
  import opened Wrappers
  import opened Settled

  type Master = string

  /** What one `ReinitTopology` call meets: the reports of the nodes, whether the keyspace config could be applied,
      and the masters found when re-subscribing (`None` when listing them fails). */
  datatype Call = Call(reports: seq<NodeReport>, keyspaceOk: bool, masters: Option<set<Master>>)

  /** The call gets past its checks and rebuilds the subscriptions. */
  ghost predicate Rebuilds(c: Call) {
    Meaning(c.reports) == SettledC && c.keyspaceOk
  }

  function Found(masters: Option<set<Master>>): set<Master> {
    if masters.Some? then masters.value else {}
  }

  /** The listing of the last rebuilding call, or of `Init` when there is none. */
  ghost function LastListing(initial: Option<set<Master>>, calls: seq<Call>): Option<set<Master>> {
    if calls == [] then initial
    else
      var c := calls[|calls| - 1];
      if Rebuilds(c) then c.masters else LastListing(initial, calls[..|calls| - 1])
  }

  /** Exactly one subscription on each master, and no other. */
  ghost predicate Covers(open: map<nat, Master>, masters: set<Master>) {
    && (forall p :: p in open ==> open[p] in masters)
    && (forall m :: m in masters ==> exists p :: p in open && open[p] == m)
    && (forall p, q :: p in open && q in open && open[p] == open[q] ==> p == q)
  }

  /** Subscriptions cover one set of masters only. */
  lemma CoversUnique(open: map<nat, Master>, a: set<Master>, b: set<Master>)
    requires Covers(open, a)
    ensures Covers(open, b) <==> a == b
  {
    if Covers(open, b) {
      forall m ensures m in a <==> m in b {
        if m in a { var p :| p in open && open[p] == m; }
        if m in b { var p :| p in open && open[p] == m; }
      }
    }
  }

  lemma CoversOneMore(open: map<nat, Master>, masters: set<Master>, p: nat, m: Master)
    requires Covers(open, masters) && p !in open && m !in masters
    ensures Covers(open[p := m], masters + {m})
  {
    var more := open[p := m];
    forall x | x in masters + {m} ensures exists q :: q in more && more[q] == x {
      if x == m {
        assert p in more && more[p] == x;
      } else {
        var q :| q in open && open[q] == x;
        assert q in more && more[q] == x;
      }
    }
  }

  class OssClient {
    const oss: bool                   // ClusterModeOSS; otherwise one subscription outside this state
    var pubSubs: seq<nat>             // the tracked subscriptions
    var open: map<nat, Master>        // subscriptions open at the servers, tracked or not
    var next: nat

    /** Every open subscription is tracked, once. */
    ghost predicate Valid()
      reads this
    {
      && (forall i, j :: 0 <= i < j < |pubSubs| ==> pubSubs[i] != pubSubs[j])
      && (forall p :: p in open <==> p in pubSubs)
      && (forall p :: p in open ==> p < next)
    }

    /** Exactly one open subscription on each of these masters, and no other. */
    ghost predicate OnePer(masters: set<Master>)
      reads this
    {
      Covers(open, masters)
    }

    constructor (oss: bool)
      ensures this.oss == oss && Valid() && OnePer({})
    {
      this.oss, pubSubs, open, next := oss, [], map[], 0;
    }

    method Add(p: nat, m: Master)
      requires Valid() && p == next
      modifies this
      ensures Valid() && next == old(next) + 1 && pubSubs == old(pubSubs) + [p] && open == old(open)[p := m]
    {
      assert forall i :: 0 <= i < |pubSubs| ==> pubSubs[i] in pubSubs;
      next := next + 1;
      open := open[p := m];
      pubSubs := pubSubs + [p];
    }

    /** Closes every tracked subscription. */
    method CloseAll()
      requires Valid()
      modifies this
      ensures Valid() && pubSubs == [] && open == map[]
    {
      for i := 0 to |pubSubs|
        invariant pubSubs == old(pubSubs) && next == old(next)
        invariant forall p :: p in open <==> p in pubSubs[i..]
        invariant forall p :: p in open ==> p < next
      {
        open := open - {pubSubs[i]};
      }
      pubSubs := [];
    }

    /** One subscription per master, in whatever order the masters are visited. */
    method SubscribeOSS(masters: Option<set<Master>>)
      requires Valid() && open == map[]
      modifies this
      ensures Valid() && OnePer(Found(masters))
    {
      if masters.None? {
        return;
      }
      assert Covers(open, {});
      hide Covers;
      var todo := masters.value;
      assert masters.value - todo == {};
      while todo != {}
        invariant todo <= masters.value && Valid() && OnePer(masters.value - todo)
        decreases |todo|
      {
        var m :| m in todo;
        CoversOneMore(open, masters.value - todo, next, m);
        assert (masters.value - todo) + {m} == masters.value - (todo - {m});
        Add(next, m);
        todo := todo - {m};
      }
      assert masters.value - todo == masters.value;
    }

    method Init(masters: Option<set<Master>>)
      requires Valid() && open == map[]
      modifies this
      ensures Valid() && OnePer(if oss then Found(masters) else {})
    {
      if oss {
        SubscribeOSS(masters);
      }
    }

    /** A call that meets no answering node, a node that is not ok, nodes that disagree or a keyspace config that
        cannot be applied is refused and leaves the subscriptions alone; a refusal counts as "not settled" in the
        second and third case. A rebuilding call leaves one subscription per master found. When
        the listing, if it works, sees the `current` masters, success means that these are covered exactly when the
        listing worked or there are none: a failed listing is still reported as success, with nothing subscribed. */
    method ReinitTopology(c: Call, ghost current: set<Master>) returns (ok: bool, notSettled: bool)
      requires Valid()
      modifies this
      ensures Valid()
      ensures ok <==> !oss || Rebuilds(c)
      ensures oss && (!SomeAnswer(c.reports) || !AllOk(c.reports) || !AllAgree(c.reports) || !c.keyspaceOk) ==> !ok
      ensures notSettled <==> oss && SomeAnswer(c.reports) && (!AllOk(c.reports) || !AllAgree(c.reports))
      ensures !oss || !ok ==> pubSubs == old(pubSubs) && open == old(open)
      ensures oss && ok ==> OnePer(Found(c.masters))
      ensures oss && ok && (c.masters.Some? ==> c.masters.value == current) ==>
        (OnePer(current) <==> c.masters.Some? || current == {})
    {
      if !oss {
        return true, false;
      }
      var verdict := EvaluateSettled(c.reports);
      if verdict != AllSettled {
        return false, verdict.NotOk? || verdict.Disagree?;
      }
      if !c.keyspaceOk {
        return false, false;
      }
      CloseAll();
      SubscribeOSS(c.masters);
      CoversUnique(open, Found(c.masters), current);
      return true, false;
    }

    /** `Init` and then any calls, whatever their outcomes: subscriptions never stack. The open set is one per master
        of the last listing; if that listing saw the `current` masters whenever it worked, these are covered exactly
        when it worked or there are none. */
    method Live(initial: Option<set<Master>>, calls: seq<Call>, ghost current: set<Master>)
      requires Valid() && open == map[]
      modifies this
      ensures Valid() && OnePer(if oss then Found(LastListing(initial, calls)) else {})
      ensures var last := LastListing(initial, calls);
        oss && (last.Some? ==> last.value == current) ==> (OnePer(current) <==> last.Some? || current == {})
    {
      Init(initial);
      for i := 0 to |calls|
        invariant Valid() && OnePer(if oss then Found(LastListing(initial, calls[..i])) else {})
      {
        assert calls[..i + 1][..i] == calls[..i];
        var _, _ := ReinitTopology(calls[i], current);
      }
      assert calls[..|calls|] == calls;
      CoversUnique(open, if oss then Found(LastListing(initial, calls)) else {}, current);
    }

    /** The end of `Done`. */
    method Cleanup()
      requires Valid()
      modifies this
      ensures Valid() && OnePer({})
    {
      CloseAll();
    }
  }

  /** After a rebuilding call only that call matters: what came before is gone. */
  lemma {:induction false} LastRebuildDecides(initial: Option<set<Master>>, calls: seq<Call>, k: nat)
    requires k < |calls| && Rebuilds(calls[k]) && forall i :: k < i < |calls| ==> !Rebuilds(calls[i])
    ensures LastListing(initial, calls) == calls[k].masters
    decreases |calls|
  {
    if k < |calls| - 1 {
      LastRebuildDecides(initial, calls[..|calls| - 1], k);
    }
  }

  /** Without a rebuilding call the listing of `Init` stays the last. */
  lemma {:induction false} NoRebuildKeepsInit(initial: Option<set<Master>>, calls: seq<Call>)
    requires forall i :: 0 <= i < |calls| ==> !Rebuilds(calls[i])
    ensures LastListing(initial, calls) == initial
    decreases |calls|
  {
    if calls != [] {
      NoRebuildKeepsInit(initial, calls[..|calls| - 1]);
    }
  }
}

/** `evaluateSettled`: from the reports of the cluster's nodes, whether they agree on the topology. */
module Settled {
  import opened Wrappers
  import opened Sorting

  datatype NodeReport = NodeReport(addr: string, state: string, slots: string, err: Option<string>)

  datatype Verdict =
    | AllSettled
    | Connectivity(first: Option<(string, string)>)   // the first unreachable node and its error, if any node is known
    | NotOk(addr: string, state: string)
    | Disagree(ref: string, other: string)

  datatype Class = SettledC | NotSettledC | ConnectivityC

  function ClassOf(v: Verdict): Class {
    match v
    case AllSettled => SettledC
    case Connectivity(_) => ConnectivityC
    case _ => NotSettledC
  }

  // ---- What "settled" means ----

  ghost predicate Answers(reports: seq<NodeReport>, r: NodeReport) {
    r in reports && r.err.None?
  }

  ghost predicate SomeAnswer(reports: seq<NodeReport>) {
    exists r :: Answers(reports, r)
  }

  ghost predicate AllOk(reports: seq<NodeReport>) {
    forall r :: Answers(reports, r) ==> r.state == "ok"
  }

  ghost predicate AllAgree(reports: seq<NodeReport>) {
    forall r, q :: Answers(reports, r) && Answers(reports, q) ==> r.slots == q.slots
  }

  ghost function Meaning(reports: seq<NodeReport>): Class {
    if !SomeAnswer(reports) then ConnectivityC
    else if AllOk(reports) && AllAgree(reports) then SettledC
    else NotSettledC
  }

  // ---- The evaluation ----

  ghost predicate SortedByAddr(s: seq<NodeReport>) {
    forall i, j :: 0 <= i < j < |s| ==> Leq(s[i].addr, s[j].addr)
  }

  /** `sort.Slice` by address: some sorted arrangement, with no promise about equal addresses. */
  method SortByAddr(reports: seq<NodeReport>) returns (s: seq<NodeReport>)
    ensures SortedByAddr(s) && multiset(s) == multiset(reports)
  {
    s := [];
    for i := 0 to |reports|
      invariant SortedByAddr(s) && multiset(s) == multiset(reports[..i])
    {
      s := InsertReport(reports[i], s);
      assert reports[..i + 1] == reports[..i] + [reports[i]];
    }
    assert reports[..|reports|] == reports;
  }

  method InsertReport(x: NodeReport, s: seq<NodeReport>) returns (r: seq<NodeReport>)
    requires SortedByAddr(s)
    ensures SortedByAddr(r) && multiset(r) == multiset(s) + multiset{x}
  {
    var k := 0;
    while k < |s| && !Leq(x.addr, s[k].addr)
      invariant k <= |s|
      invariant forall i :: 0 <= i < k ==> Leq(s[i].addr, x.addr)
    {
      LeqTotal(s[k].addr, x.addr);
      k := k + 1;
    }
    forall j | k <= j < |s| ensures Leq(x.addr, s[j].addr) {
      if k < j { LeqTransitive(x.addr, s[k].addr, s[j].addr); }
    }
    r := s[..k] + [x] + s[k..];
    assert s == s[..k] + s[k..];
  }

  lemma SameMembers(a: seq<NodeReport>, b: seq<NodeReport>)
    requires multiset(a) == multiset(b)
    ensures forall r :: r in a <==> r in b
  {
    forall r ensures r in a <==> r in b {
      assert r in a <==> r in multiset(a);
      assert r in b <==> r in multiset(b);
    }
  }

  /** The first unreachable node in address order, and the answering nodes in address order. */
  method Partition(s: seq<NodeReport>) returns (answered: seq<NodeReport>, firstErr: Option<(string, string)>)
    requires SortedByAddr(s)
    ensures SortedByAddr(answered)
    ensures forall r :: r in answered <==> r in s && r.err.None?
    ensures firstErr.None? <==> forall r :: r in s ==> r.err.None?
    ensures firstErr.Some? ==> FirstFailure(s, firstErr.value)
  {
    answered, firstErr := [], None;
    for i := 0 to |s|
      invariant SortedByAddr(answered)
      invariant forall r :: r in answered <==> r in s[..i] && r.err.None?
      invariant forall j :: 0 <= j < |answered| && i < |s| ==> Leq(answered[j].addr, s[i].addr)
      invariant firstErr.None? <==> forall j :: 0 <= j < i ==> s[j].err.None?
      invariant firstErr.Some? ==> FirstFailure(s, firstErr.value)
    {
      var rep := s[i];
      assert s[..i + 1] == s[..i] + [rep];
      if rep.err.Some? {
        if firstErr.None? {
          firstErr := Some((rep.addr, rep.err.value));
          FirstAt(s, i);
        }
      } else {
        answered := answered + [rep];
      }
      forall j | 0 <= j < |answered| && i + 1 < |s| ensures Leq(answered[j].addr, s[i + 1].addr) {
        if answered[j] != rep {
          LeqTransitive(answered[j].addr, s[i].addr, s[i + 1].addr);
        }
      }
    }
    assert s[..|s|] == s;
  }

  /** A failing report with this address and error, and no failing report before it. */
  ghost predicate FirstFailure(s: seq<NodeReport>, f: (string, string)) {
    && (exists r :: r in s && r.addr == f.0 && r.err == Some(f.1))
    && (forall r :: r in s && r.err.Some? ==> Leq(f.0, r.addr))
  }

  lemma FirstAt(s: seq<NodeReport>, i: nat)
    requires SortedByAddr(s) && i < |s| && s[i].err.Some?
    requires forall j :: 0 <= j < i ==> s[j].err.None?
    ensures FirstFailure(s, (s[i].addr, s[i].err.value))
  {
    forall r | r in s && r.err.Some? ensures Leq(s[i].addr, r.addr) {
      var j :| 0 <= j < |s| && s[j] == r;
      LeqTotal(r.addr, r.addr);
    }
    assert s[i] in s;
  }

  /** An answering node that is not ok; every answering node with a smaller address is. */
  ghost predicate FirstNotOk(reports: seq<NodeReport>, addr: string, state: string) {
    && state != "ok"
    && (exists r :: Answers(reports, r) && r.addr == addr && r.state == state)
    && (forall r :: Answers(reports, r) && !Leq(addr, r.addr) ==> r.state == "ok")
  }

  /** The answering node with the smallest address and one that sees other slots; all nodes before that one agree
      with the first. */
  ghost predicate FirstDisagreement(reports: seq<NodeReport>, ref: string, other: string) {
    exists a, b :: Answers(reports, a) && Answers(reports, b) && a.addr == ref && b.addr == other && a.slots != b.slots
      && (forall r :: Answers(reports, r) ==> Leq(ref, r.addr))
      && (forall r :: Answers(reports, r) && !Leq(other, r.addr) ==> r.slots == a.slots)
  }

  method EvaluateSettled(reports: seq<NodeReport>) returns (v: Verdict)
    ensures ClassOf(v) == Meaning(reports)
    ensures v.Connectivity? ==> (v.first.None? <==> reports == [])
    ensures v.Connectivity? && v.first.Some? ==> FirstFailure(reports, v.first.value)
    ensures v.NotOk? ==> FirstNotOk(reports, v.addr, v.state)
    ensures v.Disagree? ==> AllOk(reports) && FirstDisagreement(reports, v.ref, v.other)
  {
    var s := SortByAddr(reports);
    SameMembers(s, reports);
    var answered, firstErr := Partition(s);
    assert forall r :: r in answered <==> Answers(reports, r);
    if |answered| == 0 {
      NoAnswer(reports, answered, firstErr);
      return Connectivity(firstErr);
    }
    assert Answers(reports, answered[0]);
    for i := 0 to |answered|
      invariant forall j :: 0 <= j < i ==> answered[j].state == "ok"
    {
      if answered[i].state != "ok" {
        NotOkAt(reports, answered, i);
        return NotOk(answered[i].addr, answered[i].state);
      }
    }
    assert AllOk(reports);
    var ref := answered[0];
    for i := 1 to |answered|
      invariant forall j :: 0 <= j < i ==> answered[j].slots == ref.slots
    {
      if answered[i].slots != ref.slots {
        DisagreeAt(reports, answered, i);
        return Disagree(ref.addr, answered[i].addr);
      }
    }
    return AllSettled;
  }

  lemma NoAnswer(reports: seq<NodeReport>, answered: seq<NodeReport>, firstErr: Option<(string, string)>)
    requires |answered| == 0 && forall r :: r in answered <==> Answers(reports, r)
    requires firstErr.None? <==> forall r :: r in reports ==> r.err.None?
    ensures !SomeAnswer(reports) && (firstErr.None? <==> reports == [])
  {
    assert forall r :: r !in answered;
    if reports != [] {
      assert reports[0] in reports;
      assert !Answers(reports, reports[0]);
    }
  }

  lemma EarlierIn(s: seq<NodeReport>, i: nat, r: NodeReport) returns (j: nat)
    requires SortedByAddr(s) && i < |s| && r in s && !Leq(s[i].addr, r.addr)
    ensures j < i && s[j] == r
  {
    j :| 0 <= j < |s| && s[j] == r;
    LeqTotal(r.addr, r.addr);
  }

  lemma NotOkAt(reports: seq<NodeReport>, answered: seq<NodeReport>, i: nat)
    requires SortedByAddr(answered) && forall r :: r in answered <==> Answers(reports, r)
    requires i < |answered| && answered[i].state != "ok"
    requires forall j :: 0 <= j < i ==> answered[j].state == "ok"
    ensures FirstNotOk(reports, answered[i].addr, answered[i].state) && !AllOk(reports)
  {
    assert Answers(reports, answered[i]);
    forall r | Answers(reports, r) && !Leq(answered[i].addr, r.addr) ensures r.state == "ok" {
      var j := EarlierIn(answered, i, r);
    }
  }

  lemma DisagreeAt(reports: seq<NodeReport>, answered: seq<NodeReport>, i: nat)
    requires SortedByAddr(answered) && forall r :: r in answered <==> Answers(reports, r)
    requires 0 < i < |answered| && answered[i].slots != answered[0].slots
    requires forall j :: 0 <= j < i ==> answered[j].slots == answered[0].slots
    ensures FirstDisagreement(reports, answered[0].addr, answered[i].addr) && !AllAgree(reports)
  {
    var a, b := answered[0], answered[i];
    assert Answers(reports, a) && Answers(reports, b);
    forall r | Answers(reports, r) ensures Leq(a.addr, r.addr) {
      var j :| 0 <= j < |answered| && answered[j] == r;
      LeqTotal(r.addr, r.addr);
    }
    forall r | Answers(reports, r) && !Leq(b.addr, r.addr) ensures r.slots == a.slots {
      var j := EarlierIn(answered, i, r);
    }
  }

  // ---- Arrival order and dead nodes do not matter ----

  lemma OrderIrrelevant(a: seq<NodeReport>, b: seq<NodeReport>)
    requires multiset(a) == multiset(b)
    ensures Meaning(a) == Meaning(b)
  {
    SameMembers(a, b);
    assert forall r :: Answers(a, r) <==> Answers(b, r);
  }

  /** Unreachable nodes change the verdict of no report set in which some node answered. */
  lemma UnreachableIrrelevant(a: seq<NodeReport>, dead: seq<NodeReport>)
    requires SomeAnswer(a) && forall r :: r in dead ==> r.err.Some?
    ensures Meaning(a + dead) == Meaning(a)
  {
    assert forall r :: Answers(a + dead, r) <==> Answers(a, r);
  }
}

/** The settled check end to end: what equal canonical texts say about the cluster. */
module Topology {
  import opened Slots
  import opened Settled

  /** Report `i` was made from the CLUSTER NODES text `texts[i]` of its node, unless the node did not answer. */
  ghost predicate MadeFrom(reports: seq<NodeReport>, texts: seq<string>) {
    && |reports| == |texts|
    && forall i :: 0 <= i < |reports| && reports[i].err.None? ==> reports[i].slots == SlotOwnership(texts[i])
  }

  ghost predicate TokensCommaFree(texts: seq<string>) {
    forall i, o :: 0 <= i < |texts| && o in Owners(texts[i]) ==> CommaFree(o)
  }

  /** Every two answering nodes see the same owners with the same slots. */
  ghost predicate SameView(reports: seq<NodeReport>, texts: seq<string>)
    requires |reports| == |texts|
  {
    forall i, j :: 0 <= i < |reports| && 0 <= j < |reports| && reports[i].err.None? && reports[j].err.None? ==>
      multiset(Owners(texts[i])) == multiset(Owners(texts[j]))
  }

  lemma AgreeMeansSameView(reports: seq<NodeReport>, texts: seq<string>)
    requires MadeFrom(reports, texts) && TokensCommaFree(texts)
    ensures AllAgree(reports) <==> SameView(reports, texts)
  {
    hide SlotOwnership, Owners, CommaFree;
    forall i, j | 0 <= i < |reports| && 0 <= j < |reports| && reports[i].err.None? && reports[j].err.None?
      ensures reports[i].slots == reports[j].slots <==> multiset(Owners(texts[i])) == multiset(Owners(texts[j]))
    {
      SlotOwnershipCanonical(texts[i], texts[j]);
    }
    if AllAgree(reports) {
      forall i, j | 0 <= i < |reports| && 0 <= j < |reports| && reports[i].err.None? && reports[j].err.None?
        ensures multiset(Owners(texts[i])) == multiset(Owners(texts[j]))
      {
        assert Answers(reports, reports[i]) && Answers(reports, reports[j]);
      }
    }
    if SameView(reports, texts) {
      forall r, q | Answers(reports, r) && Answers(reports, q) ensures r.slots == q.slots {
        var i :| 0 <= i < |reports| && reports[i] == r;
        var j :| 0 <= j < |reports| && reports[j] == q;
      }
    }
  }

  /** The cluster counts as settled exactly when some node answers, all answering nodes are ok, and all of them see
      the same nodes owning the same slots. */
  lemma SettledMeansSameOwners(reports: seq<NodeReport>, texts: seq<string>)
    requires MadeFrom(reports, texts) && TokensCommaFree(texts)
    ensures Meaning(reports) == SettledC <==> SomeAnswer(reports) && AllOk(reports) && SameView(reports, texts)
  {
    hide MadeFrom, TokensCommaFree, AllAgree, SameView;
    AgreeMeansSameView(reports, texts);
  }
}

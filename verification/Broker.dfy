/**
 The notification broker: any number of concurrent `Send` calls, the runner
 goroutine and one `Close` call, step by step over Go channels.
 */
module Broker {
  type SendId = nat

  /** What the library tells its user about a data stream. */
  datatype Notif =
    | StreamAdded(name: string, id: string)
    | StreamDisowned(name: string, id: string)
    | StreamExpired(name: string, id: string)
    | StreamTerminated(info: string)

  /** A notification in a channel, with the call that sent it. */
  datatype Item = Item(sender: SendId, notif: Notif)

  datatype SendPhase =
    | Entering(notif: Notif)       // about to read the closed flag
    | Selecting(notif: Notif)      // read it as false, about to select
    | Blocked(notif: Notif)        // in the select with no case ready: waiting on the channels
    | Returned(accepted: bool)
    | Panicked                     // sent on the closed input channel

  datatype RunPhase =
    | Loop                         // the outer select
    | Writing(item: Item)          // received in the outer select, about to write to the output
    | Draining                     // the inner select
    | DrainWriting(item: Item)
    | Closing                      // the inner select found nothing, about to close the input
    | Finished

  datatype ClosePhase =
    | NotCalled
    | FlagSet                      // the compare-and-swap is done, about to close quit
    | Awaiting                     // waiting for the runner
    | OutputClosed

  datatype State = State(
    capacity: nat,
    input: seq<Item>,
    inputClosed: bool,
    output: seq<Item>,             // everything ever written to the output
    outputClosed: bool,
    closed: bool,
    quit: bool,
    runner: RunPhase,
    closer: ClosePhase,
    sends: map<SendId, SendPhase>,
    parked: seq<SendId>,           // the calls waiting to send on the input, first come first served
    accepted: seq<Item>,           // sends that returned true, in the order of their channel operation
    inFlight: set<SendId>,         // sends between flag check and select when the flag was set
    wroteClosed: bool)             // an item was written to the closed output

  datatype Event =
    | Call(q: SendId, notif: Notif)
    | CheckFlag(q: SendId)
    | SelectDone(q: SendId)        // the context is done
    | SelectQuit(q: SendId)
    | SelectInput(q: SendId)
    | Park(q: SendId)
    | RunQuit | RunReceive | RunWrite | RunEmpty | RunClose
    | SetFlag | CloseQuit | CloseOutput

  ghost predicate Init(s: State) {
    s == State(s.capacity, [], false, [], false, false, false, Loop, NotCalled, map[], [], [], {}, false)
  }

  predicate Enters(s: State, q: SendId) {
    q in s.sends && s.sends[q].Entering?
  }

  /** The call has read the flag as false and not reached its select yet. */
  predicate InFlight(s: State, q: SendId) {
    q in s.sends && s.sends[q].Selecting?
  }

  predicate Waits(s: State, q: SendId) {
    q in s.sends && s.sends[q].Blocked?
  }

  predicate Enabled(s: State, e: Event) {
    match e
    case Call(q, _) => q !in s.sends
    case CheckFlag(q) => Enters(s, q)
    case SelectDone(q) => InFlight(s, q) || Waits(s, q)
    case SelectQuit(q) => InFlight(s, q) && s.quit
    case SelectInput(q) => InFlight(s, q) && (s.inputClosed || |s.input| < s.capacity)
    case Park(q) => InFlight(s, q) && !s.quit && !s.inputClosed && |s.input| >= s.capacity
    case RunQuit => s.runner.Loop? && s.quit
    case RunReceive => (s.runner.Loop? || s.runner.Draining?) && s.input != []
    case RunWrite => s.runner.Writing? || s.runner.DrainWriting?
    case RunEmpty => s.runner.Draining? && s.input == []
    case RunClose => s.runner.Closing?
    case SetFlag => s.closer.NotCalled?
    case CloseQuit => s.closer.FlagSet?
    case CloseOutput => s.closer.Awaiting? && s.runner.Finished?
  }

  /** The queue of waiting calls without one of them. */
  function Leave(parked: seq<SendId>, q: SendId): (r: seq<SendId>)
    ensures forall x :: x in r <==> x in parked && x != q
    ensures Distinct(parked) ==> Distinct(r)
  {
    if parked == [] then []
    else if parked[0] == q then Leave(parked[1..], q)
    else
      var rest := Leave(parked[1..], q);
      assert forall i :: 0 <= i < |rest| ==> rest[i] in rest;
      [parked[0]] + rest
  }

  predicate Distinct(parked: seq<SendId>) {
    forall i, j :: 0 <= i < j < |parked| ==> parked[i] != parked[j]
  }

  /** Every waiting call wakes up with this result. */
  function WakeAll(sends: map<SendId, SendPhase>, result: SendPhase): map<SendId, SendPhase> {
    map q | q in sends :: if sends[q].Blocked? then result else sends[q]
  }

  /** The call's item enters the input. */
  function Accept(s: State, q: SendId): State
    requires q in s.sends && (s.sends[q].Selecting? || s.sends[q].Blocked?)
  {
    var item := Item(q, s.sends[q].notif);
    s.(sends := s.sends[q := Returned(true)], input := s.input + [item], accepted := s.accepted + [item])
  }

  /** The runner takes the first item. */
  function Received(s: State): State
    requires s.input != []
  {
    s.(input := s.input[1..], runner := if s.runner.Loop? then Writing(s.input[0]) else DrainWriting(s.input[0]))
  }

  /** A receive that frees a place lets the first waiting call in. */
  function Refill(s: State): State {
    if s.parked != [] && Waits(s, s.parked[0]) then Accept(s, s.parked[0]).(parked := s.parked[1..]) else s
  }

  function Apply(s: State, e: Event): State
    requires Enabled(s, e)
  {
    match e
    case Call(q, n) => s.(sends := s.sends[q := Entering(n)])
    case CheckFlag(q) =>
      s.(sends := s.sends[q := if s.closed then Returned(false) else Selecting(s.sends[q].notif)])
    case SelectDone(q) => s.(sends := s.sends[q := Returned(false)], parked := Leave(s.parked, q))
    case SelectQuit(q) => s.(sends := s.sends[q := Returned(false)])
    case SelectInput(q) => if s.inputClosed then s.(sends := s.sends[q := Panicked]) else Accept(s, q)
    case Park(q) => s.(sends := s.sends[q := Blocked(s.sends[q].notif)], parked := s.parked + [q])
    case RunQuit => s.(runner := Draining)
    case RunReceive => Refill(Received(s))
    case RunWrite =>
      s.(output := s.output + [s.runner.item], wroteClosed := s.wroteClosed || s.outputClosed,
         runner := if s.runner.Writing? then Loop else Draining)
    case RunEmpty => s.(runner := Closing)
    case RunClose => s.(inputClosed := true, runner := Finished, sends := WakeAll(s.sends, Panicked), parked := [])
    case SetFlag =>
      s.(closed := true, closer := FlagSet, inFlight := set q | q in s.sends && s.sends[q].Selecting?)
    case CloseQuit => s.(quit := true, closer := Awaiting, sends := WakeAll(s.sends, Returned(false)), parked := [])
    case CloseOutput => s.(outputClosed := true, closer := OutputClosed)
  }

  /** Some events lead from `s` to `s'`. */
  ghost predicate Leads(s: State, es: seq<Event>, s': State)
    decreases |es|
  {
    if es == [] then s == s'
    else Enabled(s, es[0]) && Leads(Apply(s, es[0]), es[1..], s')
  }

  ghost predicate Reachable(s: State) {
    exists s0, es :: Init(s0) && Leads(s0, es, s)
  }

  // ---- The invariant ----

  /** What the runner has taken from the input and not yet written. */
  function Hand(ph: RunPhase): seq<Item> {
    if ph.Writing? || ph.DrainWriting? then [ph.item] else []
  }

  ghost predicate PipeInv(s: State) {
    s.output + Hand(s.runner) + s.input == s.accepted
  }

  /** Shutdown happens in order: flag, quit, drain, input closed, output closed. */
  ghost predicate OrderInv(s: State) {
    && (s.closed <==> !s.closer.NotCalled?)
    && (s.quit <==> s.closer.Awaiting? || s.closer.OutputClosed?)
    && (s.runner.Draining? || s.runner.DrainWriting? || s.runner.Closing? || s.runner.Finished? ==> s.quit)
    && (s.inputClosed <==> s.runner.Finished?)
    && (s.outputClosed <==> s.closer.OutputClosed?)
    && (s.outputClosed ==> s.runner.Finished?)
    && !s.wroteClosed
  }

  /** Once the flag is set only the calls in flight then can still select, be accepted or panic. */
  ghost predicate FlightInv(s: State) {
    && (s.closed ==> forall q :: q in s.sends && s.sends[q].Selecting? ==> q in s.inFlight)
    && (forall q :: q in s.sends && s.sends[q].Panicked? ==> s.closed && q in s.inFlight)
    && (s.runner.Closing? || s.runner.Finished? ==> forall i :: 0 <= i < |s.input| ==> s.input[i].sender in s.inFlight)
  }

  /** A call is accepted once, exactly when it returned true. */
  ghost predicate OnceInv(s: State) {
    && (forall i :: 0 <= i < |s.accepted| ==>
          s.accepted[i].sender in s.sends && s.sends[s.accepted[i].sender] == Returned(true))
    && (forall i, j :: 0 <= i < j < |s.accepted| ==> s.accepted[i].sender != s.accepted[j].sender)
    && (forall q :: q in s.sends && s.sends[q] == Returned(true) ==>
          exists i :: 0 <= i < |s.accepted| && s.accepted[i].sender == q)
  }

  /** The queue holds exactly the waiting calls; they wait only on a full input and before quit is closed. */
  ghost predicate ParkInv(s: State) {
    && Distinct(s.parked)
    && (forall q :: q in s.parked <==> Waits(s, q))
    && (s.parked != [] ==> !s.quit && |s.input| >= s.capacity)
  }

  ghost predicate Inv(s: State) {
    PipeInv(s) && OrderInv(s) && FlightInv(s) && OnceInv(s) && ParkInv(s)
  }

  lemma PipeAccept(s: State, q: SendId)
    requires PipeInv(s) && q in s.sends && (s.sends[q].Selecting? || s.sends[q].Blocked?)
    ensures PipeInv(Accept(s, q))
  {
    var item := Item(q, s.sends[q].notif);
    assert s.output + Hand(s.runner) + (s.input + [item]) == (s.output + Hand(s.runner) + s.input) + [item];
  }

  lemma PipeReceive(s: State)
    requires PipeInv(s) && (s.runner.Loop? || s.runner.Draining?) && s.input != []
    ensures PipeInv(Refill(Received(s)))
  {
    assert s.input == [s.input[0]] + s.input[1..];
    var s1 := Received(s);
    assert s.output + [] + s.input == s.output + [s.input[0]] + s.input[1..];
    assert PipeInv(s1);
    if s1.parked != [] && Waits(s1, s1.parked[0]) {
      PipeAccept(s1, s1.parked[0]);
    }
  }

  lemma PipeStep(s: State, e: Event)
    requires PipeInv(s) && Enabled(s, e)
    ensures PipeInv(Apply(s, e))
  {
    hide Received, Refill, Accept, Leave, WakeAll;
    match e
    case RunReceive => PipeReceive(s);
    case SelectInput(q) =>
      if !s.inputClosed { PipeAccept(s, q); }
    case _ =>
  }

  lemma OnceAccept(s: State, q: SendId)
    requires OnceInv(s) && q in s.sends && (s.sends[q].Selecting? || s.sends[q].Blocked?)
    ensures OnceInv(Accept(s, q))
  {
    var s' := Accept(s, q);
    forall x | x in s'.sends && s'.sends[x] == Returned(true)
      ensures exists i :: 0 <= i < |s'.accepted| && s'.accepted[i].sender == x
    {
      if x == q {
        assert s'.accepted[|s.accepted|].sender == x;
      } else {
        var i :| 0 <= i < |s.accepted| && s.accepted[i].sender == x;
        assert s'.accepted[i].sender == x;
      }
    }
  }

  /** The same calls were accepted, in the same order. */
  lemma OnceSame(s: State, s': State)
    requires OnceInv(s) && s'.accepted == s.accepted
    requires forall q ::
      (q in s'.sends && s'.sends[q] == Returned(true)) <==> (q in s.sends && s.sends[q] == Returned(true))
    ensures OnceInv(s')
  {
  }

  lemma OnceReceive(s: State)
    requires OnceInv(s) && s.input != []
    ensures OnceInv(Refill(Received(s)))
  {
    hide OnceInv;
    var s1 := Received(s);
    OnceSame(s, s1);
    if s1.parked != [] && Waits(s1, s1.parked[0]) {
      OnceAccept(s1, s1.parked[0]);
      OnceSame(Accept(s1, s1.parked[0]), Refill(s1));
    }
  }

  lemma WakeKeepsTrue(sends: map<SendId, SendPhase>, result: SendPhase)
    requires result != Returned(true)
    ensures forall q :: (q in WakeAll(sends, result) && WakeAll(sends, result)[q] == Returned(true)) <==>
      (q in sends && sends[q] == Returned(true))
  {
  }

  lemma OnceStep(s: State, e: Event)
    requires OnceInv(s) && Enabled(s, e)
    ensures OnceInv(Apply(s, e))
  {
    hide OnceInv, Received, Refill, Accept, Leave, WakeAll;
    match e
    case SelectInput(q) =>
      if s.inputClosed { OnceSame(s, Apply(s, e)); } else { OnceAccept(s, q); }
    case RunReceive => OnceReceive(s);
    case _ =>
      WakeKeepsTrue(s.sends, Panicked);
      WakeKeepsTrue(s.sends, Returned(false));
      OnceSame(s, Apply(s, e));
  }

  lemma ParkStep(s: State, e: Event)
    requires ParkInv(s) && OrderInv(s) && Enabled(s, e)
    ensures ParkInv(Apply(s, e))
  {
    hide OrderInv;
    match e
    case RunReceive => ReceiveParks(s);
    case SelectInput(q) => assert !Waits(s, q);
    case Park(q) => assert !Waits(s, q) && forall i :: 0 <= i < |s.parked| ==> s.parked[i] in s.parked;
    case _ =>
  }

  lemma ReceiveParks(s: State)
    requires ParkInv(s) && Enabled(s, RunReceive)
    ensures ParkInv(Apply(s, RunReceive))
  {
    if s.parked != [] {
      assert s.parked == [s.parked[0]] + s.parked[1..];
      assert s.parked[0] in s.parked;
      forall q ensures q in s.parked[1..] <==> q in s.parked && q != s.parked[0] {
        if q in s.parked && q != s.parked[0] {
          var i :| 0 <= i < |s.parked| && s.parked[i] == q;
          assert s.parked[1..][i - 1] == q;
        }
      }
    }
  }

  lemma OrderStep(s: State, e: Event)
    requires OrderInv(s) && Enabled(s, e)
    ensures OrderInv(Apply(s, e))
  {
  }

  lemma FlightStep(s: State, e: Event)
    requires FlightInv(s) && OrderInv(s) && ParkInv(s) && Enabled(s, e)
    ensures FlightInv(Apply(s, e))
  {
    if e.RunClose? {
      forall q | q in s.sends ensures !s.sends[q].Blocked? { assert !Waits(s, q); }
    }
  }

  lemma {:induction false} InvLeads(s: State, es: seq<Event>, s': State)
    requires Inv(s) && Leads(s, es, s')
    ensures Inv(s')
    decreases |es|
  {
    hide PipeInv, OnceInv, OrderInv, FlightInv, ParkInv, Apply;
    if es != [] {
      PipeStep(s, es[0]);
      OnceStep(s, es[0]);
      OrderStep(s, es[0]);
      FlightStep(s, es[0]);
      ParkStep(s, es[0]);
      InvLeads(Apply(s, es[0]), es[1..], s');
    }
  }

  lemma ReachableInv(s: State)
    requires Reachable(s)
    ensures Inv(s)
  {
    hide Leads;
    var s0, es :| Init(s0) && Leads(s0, es, s);
    InvLeads(s0, es, s);
  }

  // ---- What it guarantees ----

  /** The calls that sent the items. */
  function Senders(items: seq<Item>): (qs: set<SendId>)
    ensures qs == {} <==> items == []
  {
    if items == [] then {} else {items[0].sender} + Senders(items[1..])
  }

  lemma SendersBounded(items: seq<Item>, qs: set<SendId>)
    requires forall i :: 0 <= i < |items| ==> items[i].sender in qs
    ensures Senders(items) <= qs
  {
  }

  lemma OneStepInv(s: State, e: Event)
    requires Inv(s) && Enabled(s, e)
    ensures Inv(Apply(s, e))
  {
    hide Inv, Apply, Enabled;
    assert [e][1..] == [];
    assert Leads(Apply(s, e), [], Apply(s, e));
    InvLeads(s, [e], Apply(s, e));
  }

  /** All that call `q` holds or has sent is `n`. */
  ghost predicate Says(s: State, q: SendId, n: Notif) {
    && q in s.sends
    && (s.sends[q].Entering? || s.sends[q].Selecting? || s.sends[q].Blocked? ==> s.sends[q].notif == n)
    && forall i :: 0 <= i < |s.accepted| && s.accepted[i].sender == q ==> s.accepted[i].notif == n
  }

  lemma SaysAccept(s: State, p: SendId, q: SendId, n: Notif)
    requires Says(s, q, n) && p in s.sends && (s.sends[p].Selecting? || s.sends[p].Blocked?)
    ensures Says(Accept(s, p), q, n)
  {
  }

  lemma SaysStep(s: State, e: Event, q: SendId, n: Notif)
    requires Says(s, q, n) && Enabled(s, e)
    ensures Says(Apply(s, e), q, n)
  {
    hide Accept, Leave;
    match e
    case SelectInput(p) => if !s.inputClosed { SaysAccept(s, p, q, n); }
    case RunReceive =>
      var s1 := Received(s);
      if s1.parked != [] && Waits(s1, s1.parked[0]) { SaysAccept(s1, s1.parked[0], q, n); }
    case _ =>
  }

  lemma {:induction false} SaysLeads(s: State, es: seq<Event>, s': State, q: SendId, n: Notif)
    requires Says(s, q, n) && Leads(s, es, s')
    ensures Says(s', q, n)
    decreases |es|
  {
    hide Says, Apply, Enabled;
    if es != [] {
      SaysStep(s, es[0], q, n);
      SaysLeads(Apply(s, es[0]), es[1..], s', q, n);
    }
  }

  lemma CallSays(s: State, q: SendId, n: Notif)
    requires Inv(s) && q !in s.sends
    ensures Says(Apply(s, Call(q, n)), q, n)
  {
  }

  /** Whatever a call sends is what it was given. */
  lemma {:induction false} SentAsGiven(s: State, es: seq<Event>, s': State, k: nat)
    requires Inv(s) && Leads(s, es, s') && k < |es| && es[k].Call?
    ensures Says(s', es[k].q, es[k].notif)
    decreases |es|
  {
    hide Inv, Says, Apply;
    if k == 0 {
      CallSays(s, es[0].q, es[0].notif);
      SaysLeads(Apply(s, es[0]), es[1..], s', es[0].q, es[0].notif);
    } else {
      OneStepInv(s, es[0]);
      SentAsGiven(Apply(s, es[0]), es[1..], s', k - 1);
    }
  }

  lemma RefillKeys(s: State)
    ensures Refill(s).sends.Keys == s.sends.Keys && Refill(s).closed == s.closed
  {
  }

  /** A call appears when it begins. */
  lemma Begins(s: State, e: Event, q: SendId)
    requires Enabled(s, e) && q !in s.sends && q in Apply(s, e).sends
    ensures e.Call? && e.q == q && Apply(s, e).sends[q].Entering?
  {
    hide Leave, Refill;
    if e.RunReceive? { RefillKeys(Received(s)); }
  }

  /** Every call in progress or over has begun. */
  lemma {:induction false} CallsBegan(s: State, es: seq<Event>, s': State, q: SendId)
    requires Leads(s, es, s') && q in s'.sends && q !in s.sends
    ensures exists k :: 0 <= k < |es| && es[k].Call? && es[k].q == q
    decreases |es|
  {
    hide Apply, Enabled;
    assert es != [];
    var s1 := Apply(s, es[0]);
    if q in s1.sends {
      Begins(s, es[0], q);
    } else {
      CallsBegan(s1, es[1..], s', q);
      var k :| 0 <= k < |es[1..]| && es[1..][k].Call? && es[1..][k].q == q;
      assert es[k + 1] == es[1..][k];
    }
  }

  /** FIFO and no loss: written, in hand and queued are the accepted sends in order, each call at most once and with
      the notification that it was given, and nothing is ever written to the closed output. */
  lemma FifoNoLoss(s0: State, es: seq<Event>, s: State)
    requires Init(s0) && Leads(s0, es, s)
    ensures s.output + Hand(s.runner) + s.input == s.accepted
    ensures s.output <= s.accepted && !s.wroteClosed
    ensures forall i, j :: 0 <= i < j < |s.accepted| ==> s.accepted[i].sender != s.accepted[j].sender
    ensures forall q :: q in s.sends && s.sends[q] == Returned(true) <==>
              exists i :: 0 <= i < |s.accepted| && s.accepted[i].sender == q
    ensures forall item :: item in s.accepted ==> Call(item.sender, item.notif) in es
    ensures forall q, n :: Call(q, n) in es ==> Says(s, q, n)
  {
    hide Leads, Says;
    InvLeads(s0, es, s);
    forall q, n | Call(q, n) in es ensures Says(s, q, n) {
      var k :| 0 <= k < |es| && es[k] == Call(q, n);
      SentAsGiven(s0, es, s, k);
    }
    forall item | item in s.accepted ensures Call(item.sender, item.notif) in es {
      var i :| 0 <= i < |s.accepted| && s.accepted[i] == item;
      CallsBegan(s0, es, s, item.sender);
      var k :| 0 <= k < |es| && es[k].Call? && es[k].q == item.sender;
      SentAsGiven(s0, es, s, k);
      SaysItem(s, item.sender, es[k].notif, i);
      assert es[k] == Call(item.sender, item.notif);
    }
  }

  lemma SaysItem(s: State, q: SendId, n: Notif, i: nat)
    requires Says(s, q, n) && i < |s.accepted| && s.accepted[i].sender == q
    ensures s.accepted[i] == Item(q, n)
  {
  }

  /** Shutdown: what is left undelivered when the output closes, and every panic, comes from a call that was
      between its flag check and its select when the flag was set. */
  lemma ShutdownLeftovers(s: State)
    requires Reachable(s) && s.runner.Finished?
    ensures s.output + s.input == s.accepted
    ensures Senders(s.input) <= s.inFlight
    ensures forall q :: q in s.sends && s.sends[q].Panicked? ==> q in s.inFlight
  {
    ReachableInv(s);
    SendersBounded(s.input, s.inFlight);
    assert s.output + [] + s.input == s.output + s.input;
  }

  /** With no call in flight at that moment, everything accepted is delivered and no call panics. */
  lemma CleanShutdown(s: State)
    requires Reachable(s) && s.closed && s.inFlight == {}
    ensures s.outputClosed ==> s.output == s.accepted && s.input == []
    ensures forall q :: q in s.sends ==> !s.sends[q].Panicked?
  {
    ReachableInv(s);
    if s.outputClosed {
      ShutdownLeftovers(s);
      assert s.output + [] == s.output;
    }
  }

  // ---- Calls already waiting in the select ----

  /** The call has failed, or is still waiting, or its item is on its way to the output. */
  ghost predicate OnItsWay(s: State, q: SendId) {
    && q in s.sends
    && ( || s.sends[q].Blocked?
         || s.sends[q] == Returned(false)
         || (s.sends[q] == Returned(true) &&
             (s.runner.Closing? || s.runner.Finished? ==> forall i :: 0 <= i < |s.input| ==> s.input[i].sender != q)))
  }

  lemma OnItsWayStep(s: State, e: Event, q: SendId)
    requires Inv(s) && Enabled(s, e) && OnItsWay(s, q)
    ensures OnItsWay(Apply(s, e), q)
  {
    hide PipeInv, OnceInv, FlightInv;
    if e.RunClose? {
      assert !Waits(s, q);
    }
  }

  lemma {:induction false} OnItsWayLeads(s: State, es: seq<Event>, s': State, q: SendId)
    requires Inv(s) && OnItsWay(s, q) && Leads(s, es, s')
    ensures Inv(s') && OnItsWay(s', q)
    decreases |es|
  {
    hide Inv, OnItsWay, Apply, Enabled;
    if es != [] {
      OnItsWayStep(s, es[0], q);
      OneStepInv(s, es[0]);
      OnItsWayLeads(Apply(s, es[0]), es[1..], s', q);
    }
  }

  lemma InFront(a: seq<Item>, b: seq<Item>, i: nat, q: SendId)
    requires i < |a + b| && (a + b)[i].sender == q && forall j :: 0 <= j < |b| ==> b[j].sender != q
    ensures i < |a|
  {
  }

  /** A call that waits in its select is safe whatever happens: it never panics, and if it is told `true` its very
      notification has been written by the time the output is closed. */
  lemma WaitingIsSafe(s: State, q: SendId, es: seq<Event>, s': State)
    requires Reachable(s) && Waits(s, q) && Leads(s, es, s')
    ensures q in s'.sends && !s'.sends[q].Panicked?
    ensures s'.outputClosed && s'.sends[q] == Returned(true) ==>
            Item(q, s.sends[q].notif) in s'.output
  {
    hide Leads, FlightInv, ParkInv;
    ReachableInv(s);
    OnItsWayLeads(s, es, s', q);
    SaysLeads(s, es, s', q, s.sends[q].notif);
    if s'.outputClosed && s'.sends[q] == Returned(true) {
      var i :| 0 <= i < |s'.accepted| && s'.accepted[i].sender == q;
      assert s'.output + [] + s'.input == s'.accepted;
      InFront(s'.output, s'.input, i, q);
      assert s'.output[i] == s'.accepted[i];
    }
  }

  // ---- When a call is refused, and that it can get through ----

  lemma {:induction false} ClosedStays(s: State, es: seq<Event>, s': State)
    requires Leads(s, es, s') && s.closed
    ensures s'.closed
    decreases |es|
  {
    hide Refill, Leave, WakeAll;
    if es != [] {
      if es[0].RunReceive? { RefillKeys(Received(s)); }
      ClosedStays(Apply(s, es[0]), es[1..], s');
    }
  }

  lemma RefusalStep(s: State, e: Event, q: SendId)
    requires Inv(s) && Enabled(s, e) && q in s.sends && s.sends[q] != Returned(false)
    requires e != SelectDone(q) && !Apply(s, e).closed
    ensures q in Apply(s, e).sends && Apply(s, e).sends[q] != Returned(false)
  {
    hide PipeInv, OnceInv, FlightInv, ParkInv, Leave;
  }

  lemma {:induction false} NotRefused(s: State, es: seq<Event>, s': State, q: SendId)
    requires Inv(s) && Leads(s, es, s') && (q in s.sends ==> s.sends[q] != Returned(false))
    requires SelectDone(q) !in es && !s'.closed
    ensures q in s'.sends ==> s'.sends[q] != Returned(false)
    decreases |es|
  {
    hide Inv;
    if es != [] {
      var s1 := Apply(s, es[0]);
      OneStepInv(s, es[0]);
      if s1.closed { ClosedStays(s1, es[1..], s'); }
      assert es[0] in es;
      if q in s.sends { RefusalStep(s, es[0], q); } else if q in s1.sends { Begins(s, es[0], q); }
      NotRefused(s1, es[1..], s', q);
    }
  }

  /** `Send` returns false only when the broker has been closed or the context of the call is done. */
  lemma RefusedOnlyWhen(s0: State, es: seq<Event>, s: State, q: SendId)
    requires Init(s0) && Leads(s0, es, s) && q in s.sends && s.sends[q] == Returned(false)
    ensures s.closed || SelectDone(q) in es
  {
    hide Leads;
    if !s.closed && SelectDone(q) !in es {
      NotRefused(s0, es, s, q);
      assert false;
    }
  }

  /** An open broker can work off everything it has accepted. */
  lemma {:induction false} WorksOff(s: State) returns (es: seq<Event>, s': State)
    requires Inv(s) && s.closer.NotCalled?
    ensures Leads(s, es, s') && Inv(s') && s'.closer.NotCalled? && s'.runner.Loop? && s'.input == []
    ensures s'.sends.Keys == s.sends.Keys && s'.capacity == s.capacity
    decreases |s.input| + |s.parked|, if s.runner.Loop? then 0 else 1
  {
    hide PipeInv, OnceInv, FlightInv, ParkInv, Leads;
    if s.runner.Loop? && s.input == [] {
      es, s' := [], s;
      Stay(s);
    } else {
      var e := if s.runner.Loop? then RunReceive else RunWrite;
      var s1 := Apply(s, e);
      OneStepInv(s, e);
      Stay(s);
      Then(s, [], s, e);
      var fs;
      fs, s' := WorksOff(s1);
      Chain(s, [] + [e], s1, fs, s');
      es := [] + [e] + fs;
    }
  }

  /** From every reachable state of an open broker with a buffered input, a new `Send` can be told `true` and its
      notification written. */
  lemma SendCanDeliver(s: State, q: SendId, n: Notif) returns (es: seq<Event>, s': State)
    requires Reachable(s) && s.closer.NotCalled? && s.capacity > 0 && q !in s.sends
    ensures Leads(s, es, s') && Item(q, n) in s'.output
    ensures q in s'.sends && s'.sends[q] == Returned(true)
  {
    hide Leads, Reachable;
    ReachableInv(s);
    hide PipeInv, OnceInv, FlightInv, ParkInv;
    var gs, s1 := WorksOff(s);
    var s2 := Apply(s1, Call(q, n));
    var s3 := Apply(s2, CheckFlag(q));
    var s4 := Apply(s3, SelectInput(q));
    assert s4.input == [Item(q, n)];
    var s5 := Apply(s4, RunReceive);
    assert s5.runner == Writing(Item(q, n));
    s' := Apply(s5, RunWrite);
    assert s'.output[|s5.output|] == Item(q, n);
    Then(s, gs, s1, Call(q, n));
    es := gs + [Call(q, n)];
    Then(s, es, s2, CheckFlag(q));
    es := es + [CheckFlag(q)];
    Then(s, es, s3, SelectInput(q));
    es := es + [SelectInput(q)];
    Then(s, es, s4, RunReceive);
    es := es + [RunReceive];
    Then(s, es, s5, RunWrite);
    es := es + [RunWrite];
  }

  // ---- The condition is needed ----

  lemma {:induction false} Chain(s: State, es: seq<Event>, s1: State, fs: seq<Event>, s2: State)
    requires Leads(s, es, s1) && Leads(s1, fs, s2)
    ensures Leads(s, es + fs, s2)
    decreases |es|
  {
    if es == [] {
      assert es + fs == fs;
    } else {
      Chain(Apply(s, es[0]), es[1..], s1, fs, s2);
      assert (es + fs)[1..] == es[1..] + fs;
    }
  }

  lemma Then(s: State, es: seq<Event>, s1: State, e: Event)
    requires Leads(s, es, s1) && Enabled(s1, e)
    ensures Leads(s, es + [e], Apply(s1, e))
  {
    assert [e][1..] == [];
    assert Leads(Apply(s1, e), [], Apply(s1, e));
    Chain(s, es, s1, [e], Apply(s1, e));
  }

  /** The runner can always work off its input and stop at the inner select. */
  lemma {:induction false} RunsDry(s: State) returns (es: seq<Event>, s': State)
    requires s.quit && s.parked == [] && !s.runner.Closing? && !s.runner.Finished?
    ensures Leads(s, es, s') && s'.runner == Closing && s'.input == [] && s'.inputClosed == s.inputClosed
    ensures s'.sends == s.sends && s'.parked == [] && s'.capacity == s.capacity && s'.closer == s.closer
    decreases |s.input|, if s.runner.Draining? then 0 else if s.runner.Loop? then 1 else 2
  {
    var e := if s.runner.Loop? then RunQuit
             else if s.runner.Draining? then (if s.input == [] then RunEmpty else RunReceive)
             else RunWrite;
    var s1 := Apply(s, e);
    Then(s, [], s, e);
    if s1.runner.Closing? {
      es, s' := [e], s1;
    } else {
      var fs;
      fs, s' := RunsDry(s1);
      Chain(s, [e], s1, fs, s');
      es := [e] + fs;
    }
  }

  /**
   Whenever `Close` sets its flag while a call is between its flag check and its select, there are runs in
   which that call panics on the closed input, and, with a buffered input, runs in which it is told `true`
   although its notification is never delivered.
   */
  lemma InFlightCanPanicOrLose(s: State, q: SendId) returns (es: seq<Event>, bad: State, fs: seq<Event>, lost: State)
    requires Reachable(s) && s.closer.NotCalled? && InFlight(s, q) && s.capacity > 0
    ensures Leads(Apply(s, SetFlag), es, bad) && q in bad.sends && bad.sends[q].Panicked?
    ensures Leads(Apply(s, SetFlag), fs, lost) && q in lost.sends && lost.sends[q] == Returned(true)
    ensures lost.runner.Finished? && exists i :: 0 <= i < |lost.input| && lost.input[i].sender == q
  {
    hide Leads, Reachable;
    var s1 := Apply(s, SetFlag);
    var gs, dry := DriesOut(s, q);
    bad := Apply(Apply(dry, RunClose), SelectInput(q));
    Then(s1, gs, dry, RunClose);
    Then(s1, gs + [RunClose], Apply(dry, RunClose), SelectInput(q));
    es := gs + [RunClose] + [SelectInput(q)];

    lost := Apply(Apply(dry, SelectInput(q)), RunClose);
    Then(s1, gs, dry, SelectInput(q));
    Then(s1, gs + [SelectInput(q)], Apply(dry, SelectInput(q)), RunClose);
    fs := gs + [SelectInput(q)] + [RunClose];
    assert lost.input[0].sender == q;
  }

  /** After the flag and quit the runner can reach the point just before it closes the input, the call still there. */
  lemma DriesOut(s: State, q: SendId) returns (gs: seq<Event>, dry: State)
    requires Reachable(s) && s.closer.NotCalled? && InFlight(s, q)
    ensures Leads(Apply(s, SetFlag), gs, dry) && InFlight(dry, q) && dry.capacity == s.capacity
    ensures dry.runner == Closing && dry.input == [] && !dry.inputClosed && dry.parked == []
  {
    hide Leads, Reachable;
    ReachableInv(s);
    var s1 := Apply(s, SetFlag);
    var s2 := Apply(s1, CloseQuit);
    assert Leads(s1, [], s1) by { Stay(s1); }
    Then(s1, [], s1, CloseQuit);
    var ds;
    ds, dry := RunsDry(s2);
    gs := [] + [CloseQuit] + ds;
    Chain(s1, [] + [CloseQuit], s2, ds, dry);
  }

  lemma Stay(s: State)
    ensures Leads(s, [], s)
  {
  }

  lemma FlightKept(s: State, e: Event)
    requires s.closed && !s.closer.NotCalled? && Enabled(s, e)
    ensures var s' := Apply(s, e); s'.inFlight == s.inFlight && s'.closed && !s'.closer.NotCalled?
  {
    hide Leave, WakeAll, Received, Refill, Accept;
    match e
    case RunReceive => ReceiveKeeps(s);
    case SelectInput(q) => AcceptKeeps(s, q);
    case _ =>
  }

  lemma AcceptKeeps(s: State, q: SendId)
    requires q in s.sends && (s.sends[q].Selecting? || s.sends[q].Blocked?)
    ensures var s' := Accept(s, q); s'.inFlight == s.inFlight && s'.closed == s.closed && s'.closer == s.closer
  {
  }

  lemma ReceiveKeeps(s: State)
    requires s.input != []
    ensures var s' := Refill(Received(s)); s'.inFlight == s.inFlight && s'.closed == s.closed && s'.closer == s.closer
  {
  }

  /** The set recorded when the flag was set stays what it was. */
  lemma {:induction false} FlightRecorded(s: State, es: seq<Event>, s': State)
    requires s.closed && !s.closer.NotCalled? && Leads(s, es, s')
    ensures s'.inFlight == s.inFlight && s'.closed
    decreases |es|
  {
    hide Apply, Enabled;
    if es != [] {
      FlightKept(s, es[0]);
      FlightRecorded(Apply(s, es[0]), es[1..], s');
    }
  }

  /** Nothing went wrong: no panic, and if the output is closed everything accepted was delivered. */
  ghost predicate Clean(s: State) {
    && (forall q :: q in s.sends ==> !s.sends[q].Panicked?)
    && (s.outputClosed ==> s.output == s.accepted)
  }

  /** Nothing can go wrong from here on. */
  ghost predicate StaysClean(s: State) {
    forall es, s' :: Leads(s, es, s') ==> Clean(s')
  }

  /** A call is between its flag check and its select. */
  ghost predicate SomeInFlight(s: State) {
    exists q :: InFlight(s, q)
  }

  /** `Close` is safe in every continuation exactly when no call is between its flag check and its select at the
      moment the flag is set. */
  lemma ShutdownCleanIff(s: State)
    requires Reachable(s) && s.closer.NotCalled? && s.capacity > 0
    ensures StaysClean(Apply(s, SetFlag)) <==> !SomeInFlight(s)
  {
    hide Leads, Reachable;
    if SomeInFlight(s) {
      var q :| InFlight(s, q);
      var es, bad, fs, lost := InFlightCanPanicOrLose(s, q);
      assert Leads(Apply(s, SetFlag), es, bad) && !Clean(bad);
    } else {
      forall es, s' | Leads(Apply(s, SetFlag), es, s') ensures Clean(s') {
        CleanAfter(s, es, s');
      }
    }
  }

  lemma CleanAfter(s: State, es: seq<Event>, s': State)
    requires Reachable(s) && s.closer.NotCalled? && !SomeInFlight(s)
    requires Leads(Apply(s, SetFlag), es, s')
    ensures Clean(s')
  {
    hide Leads;
    var s0, before :| Init(s0) && Leads(s0, before, s);
    Then(s0, before, s, SetFlag);
    Chain(s0, before + [SetFlag], Apply(s, SetFlag), es, s');
    FlightRecorded(Apply(s, SetFlag), es, s');
    assert Apply(s, SetFlag).inFlight == {} by {
      forall q ensures q !in Apply(s, SetFlag).inFlight { assert !InFlight(s, q); }
    }
    assert Reachable(s');
    CleanShutdown(s');
  }
}

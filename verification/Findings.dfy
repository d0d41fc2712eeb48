/** Where the dispatcher does less than one would expect, with runs that show it. */
module DispatcherFindings {
  import opened Bandwidth
  import opened BillingProofs
  import opened CallbackProtocol
  import opened DeliveryProofs
  import opened DispatcherInvariant
  import opened DispatcherState
  import opened DispatcherSteps
  import opened DispatcherTheorems
  import opened EventStepProofs
  import opened FloatModel
  import opened GrantProofs
  import opened Ids
  import opened Scenarios
  import opened SendStepProofs
  import opened TrackingProofs
  import opened WireOrderProofs
  import opened WritabilityProofs

  // ---------- a limit set after the connection was established ----------

  lemma AcceptedUnlimited(s: State, s1: State, s2: State)
    requires s.bws == NewBw(0, 0, 0) && s.outgoings == map[] && s.queue == [] && s.reqs == map[]
    requires s.conns == map[0 := NewConn(JustAccepted(false), 3, true, Sock(5, true, false), FromListener, true, true)]
    requires s1 == WithLimit(s, 100) && Requested(s1, s2, 0, 0, [7], false)
    ensures s2.bws.maxBw == 100 && Unnoticed(s2, 0) && s2.conns[0].wire == []
    ensures s2.outgoings == map[0 := [0]]
    ensures ReqKnown(s2, 0) && s2.reqs[0].data == [7] && s2.reqs[0].sent == 0 && s2.conns[0].sock == Sock(5, true, false)
  {
    assert s2.outgoings == map[0 := [0]] by {
      assert [] + [0] == [0];
    }
  }

  lemma ReachUnnoticed() returns (s: State, run: seq<Action>)
    ensures Reached(s, START, run) && s.bws.maxBw == 100 && Unnoticed(s, 0) && s.conns[0].wire == []
    ensures Ready(s, 0)
  {
    var s0, run0 := FirstConnection(0, 5);
    var s1, run1 := Step(s0, START, run0, ClientSetsLimit(100));
    s, run := OneRequest(s1, START, run1, 0, 0, [7], false);
    AcceptedUnlimited(s0, s1, s);
    assert Listed(s, 0, 0);
    assert FirstRest(s, 0, 0) == 1;
  }

  /**
   A connection accepted before a limit of 100 was set, with one byte waiting and room for five, is
   sent nothing in any run from there on in which the limit is not lifted.
   */
  lemma AReadyConnectionIsNeverServed() returns (s: State, run: seq<Action>)
    ensures Reached(s, START, run) && s.bws.maxBw == 100 && Ready(s, 0)
    ensures forall more :: OrderlyRun(s, more) && NeverLifted(more) ==>
              ValidRun(s, more) && 0 in After(s, more).conns && After(s, more).conns[0].wire == []
  {
    s, run := ReachUnnoticed();
    forall more | OrderlyRun(s, more) && NeverLifted(more)
      ensures ValidRun(s, more) && 0 in After(s, more).conns && After(s, more).conns[0].wire == []
    {
      NeverServedUnderALimit(s, START, run, more, 0);
    }
  }

  // ---------- room that appears in the middle of a walk ----------

  /** The kernel gives one byte of room just before the second request is tried. */
  const HASTY := World(r => if r == 1 then 1 else 0, r => 0)

  ghost predicate TwoRequests(s: State)
  {
    && s.bws == NewBw(0, 0, 0) && s.outgoings == map[0 := [0, 1]] && 0 in s.conns
    && s.conns[0].cbs.state == CsConnected && s.conns[0].calls == [0, 1] && !s.conns[0].sock.dead
    && 0 in s.reqs && s.reqs[0].conn == 0 && s.reqs[0].data == [1, 2] && s.reqs[0].sent <= 1 && s.reqs[0].phase == Pending
    && 1 in s.reqs && s.reqs[1].conn == 0 && s.reqs[1].data == [3] && s.reqs[1].sent == 0 && s.reqs[1].phase == Pending
  }

  /** Two requests wait; the socket has room for half of the first. */
  ghost predicate HalfRoom(s: State)
  {
    TwoRequests(s) && s.conns[0].sock.room == 1 && s.conns[0].wire == [] && s.reqs[0].sent == 0
  }

  lemma AcceptedThenTwo(s: State, s1: State, s2: State)
    requires 0 in s.conns && s.conns[0] == NewConn(JustAccepted(false), 3, true, Sock(1, true, false), FromListener, true, true)
    requires s.reqs == map[] && s.outgoings == map[] && s.bws == NewBw(0, 0, 0)
    requires Requested(s, s1, 0, 0, [1, 2], false) && Requested(s1, s2, 1, 0, [3], false)
    ensures HalfRoom(s2)
  {
    assert s1.outgoings == map[0 := [0]] by {
      assert [] + [0] == [0];
    }
    assert s2.outgoings == map[0 := [0, 1]] by {
      assert [0] + [1] == [0, 1];
    }
  }

  lemma ReachHalfRoom() returns (s: State, run: seq<Action>)
    ensures Reached(s, START, run) && HalfRoom(s)
  {
    var s0, run0 := FirstConnection(0, 1);
    var s1, run1 := OneRequest(s0, START, run0, 0, 0, [1, 2], false);
    s, run := OneRequest(s1, START, run1, 1, 0, [3], false);
    AcceptedThenTwo(s0, s1, s);
  }

  lemma FirstHalf(s: State)
    requires HalfRoom(s) && Listed(s, 0, 0)
    ensures var out := Attempt(s, 0, 0, None, HASTY);
            !out.done && out.guess == None && TwoRequests(out.s) && out.s.conns[0].wire == [1] && out.s.conns[0].sock.room == 0
  {
    AttemptState(s, 0, 0, None, HASTY);
    DoSendDelivery(s, 0, None, HASTY);
    DoSendOutcome(s, 0, None, HASTY);
    DoSendBill(s, 0, None, HASTY);
    assert [1, 2][0..1] == [1] && [] + [1] == [1];
  }

  lemma SecondOvertakes(s: State)
    requires TwoRequests(s) && s.conns[0].wire == [1] && s.conns[0].sock.room == 0 && Listed(s, 0, 1)
    ensures var out := Attempt(s, 0, 1, None, HASTY);
            && out.done && 0 in out.s.conns && out.s.conns[0].wire == [1, 3] && out.s.conns[0].calls == [0, 1]
            && 0 in out.s.reqs && out.s.reqs[0].data == [1, 2] && 1 in out.s.reqs && out.s.reqs[1].data == [3]
  {
    AttemptState(s, 0, 1, None, HASTY);
    DoSendDelivery(s, 1, None, HASTY);
    DoSendOutcome(s, 1, None, HASTY);
    assert [3][0..1] == [3] && [1] + [3] == [1, 3];
  }

  lemma HastyPass(s: State)
    requires HalfRoom(s) && Wf(s)
    ensures var s' := SendAll(s, [0], false, HASTY);
            && 0 in s'.conns && s'.conns[0].wire == [1, 3] && s'.conns[0].calls == [0, 1]
            && 0 in s'.reqs && s'.reqs[0].data == [1, 2] && 1 in s'.reqs && s'.reqs[1].data == [3]
  {
    ListedPending(s, 0, 0);
    ListedPending(s, 0, 1);
    FirstHalf(s);
    var s1 := Attempt(s, 0, 0, None, HASTY).s;
    assert Listed(s1, 0, 1);
    SecondOvertakes(s1);
    assert SendList(s1, 0, 1, None, HASTY) == Attempt(s1, 0, 1, None, HASTY).s;
    assert SendList(s, 0, 0, None, HASTY) == SendList(s1, 0, 1, None, HASTY);
    assert [0][1..] == [];
    assert SendAll(SendList(s, 0, 0, None, HASTY), [], false, HASTY) == SendList(s, 0, 0, None, HASTY);
  }

  lemma HastyTurn(s: State, fpu: Fpu)
    requires HalfRoom(s) && Inv(s)
    ensures var s' := Idle(s, Tour([0], HASTY, CALM), fpu);
            && 0 in s'.conns && s'.conns[0].wire == [1, 3] && s'.conns[0].calls == [0, 1]
            && 0 in s'.reqs && s'.reqs[0].data == [1, 2] && 1 in s'.reqs && s'.reqs[1].data == [3]
  {
    HastyPass(s);
    var s1 := SendAll(s, [0], false, HASTY);
    FreeWalkKeepsAccounts(s, [0], false, HASTY);
    SendAllInv(s, [0], false, HASTY);
    NoGuessSilentList(s1, 0, 0, CALM);
    assert [0][1..] == [];
    assert SendAll(s1, [0], true, CALM) == SendList(s1, 0, 0, Some(0), CALM);
  }

  lemma WholeOfTwo(reqs: map<ReqId, Req>)
    requires 0 in reqs && reqs[0].data == [1, 2] && reqs[0].sent <= 2
    requires 1 in reqs && reqs[1].data == [3] && reqs[1].sent <= 1
    ensures AllIn(reqs, [0, 1]) && Whole(reqs, [0, 1]) == [1, 2, 3]
  {
    assert [0, 1][..1] == [0] && [0][..0] == [];
    assert Whole(reqs, []) + reqs[0].data == [1, 2];
    assert [1, 2] + [3] == [1, 2, 3];
  }

  /**
   Without the assumption on the kernel the bytes of two requests do get mixed: two requests with
   the data 1, 2 and 3 leave 1, 3 on the wire.
   */
  lemma RoomInTheMiddleInterleaves(fpu: Fpu) returns (s: State, run: seq<Action>)
    requires Sound(fpu)
    ensures Reached(s, START, run) && 0 in s.conns && AllIn(s.reqs, s.conns[0].calls)
    ensures s.conns[0].wire == [1, 3] && Whole(s.reqs, s.conns[0].calls) == [1, 2, 3]
  {
    var s0, run0 := ReachHalfRoom();
    ReachedInv(s0, START, run0);
    var a := Idles(Tour([0], HASTY, CALM), fpu);
    assert Visits(s0, [0]);
    ReachedNext(s0, START, run0, a);
    HastyTurn(s0, fpu);
    s, run := Next(s0, a), run0 + [a];
    ReachedInv(s, START, run);
    assert ReqKnown(s, 0) && ReqKnown(s, 1);
    WholeOfTwo(s.reqs);
  }

  // ---------- a connect that fails at once, and the close that follows ----------

  /** The first half of a two-call connect at address 0, and the second, which succeeds at once or not. */
  function Dialling(ok: bool): State
  {
    Dial(MakeConn(BLANK, 0), 0, false, ok)
  }

  lemma ReachDialled(ok: bool) returns (run: seq<Action>)
    ensures Reached(Dialling(ok), START, run) && Inv(Dialling(ok))
  {
    assert Reached(BLANK, START, []);
    var s1, run1 := Step(BLANK, START, [], ClientMakes(0));
    var s2, run2 := Step(s1, START, run1, ClientDials(0, false, ok));
    run := run2;
  }

  /** A connection is made, its connect fails at once, the client closes it: handling the close crashes. */
  lemma ClosingAFailedConnectCrashes() returns (s: State, run: seq<Action>)
    ensures Reached(s, START, run) && Enabled(s, HandlesMessage) && Next(s, HandlesMessage).crashed
    ensures 0 in s.conns && s.conns[0].cbs.trace == []
    ensures 0 in Next(s, HandlesMessage).conns && Next(s, HandlesMessage).conns[0].cbs.trace == [CallRefused]
  {
    var run0 := ReachDialled(false);
    s, run := Step(Dialling(false), START, run0, ClientCloses(0));
    assert s.queue == [Close(0)];
    ClosingAFailedConnect(s, START, run, 0);
  }

  // ---------- the counter after a two-call connect ----------

  /** The connection at address 0 is alone, has its buffer, and nobody has counted it. */
  predicate Uncounted(s: State)
  {
    s.conns.Keys == {0} && s.conns[0].issued && s.conns[0].recv && s.conns[0].cbs.state == CsWait4Connect
    && s.counter == 0 && s.uncounted == 0 && !s.crashed
  }

  lemma CreateIsHandled(s: State)
    requires Uncounted(s) && s.queue == [Create(0), Close(0)]
    ensures Uncounted(PopMessage(s)) && PopMessage(s).queue == [Close(0)]
  {
  }

  lemma CloseIsHandled(s: State)
    requires Uncounted(s) && s.queue == [Close(0)]
    ensures var s' := PopMessage(s);
            s'.queue == [] && s'.uncounted == 0 && s'.conns.Keys == {0} && s'.conns[0].cbs.state == CsClosed && s'.counter == Wrap(-1)
  {
  }

  lemma ReachClose() returns (s: State, run: seq<Action>)
    ensures Reached(s, START, run) && Uncounted(s) && s.queue == [Close(0)]
  {
    var s1, run1 := ReachCreate();
    CreateIsHandled(s1);
    run := HandlesNext(s1, START, run1);
    s := PopMessage(s1);
  }

  lemma ReachCreate() returns (s: State, run: seq<Action>)
    ensures Reached(s, START, run) && Uncounted(s) && s.queue == [Create(0), Close(0)]
  {
    var run0 := ReachDialled(true);
    s, run := Step(Dialling(true), START, run0, ClientCloses(0));
  }

  /** A two-call connection is created and closed: the destructor would find the counter at 2^32 - 1. */
  lemma TwoCallLeavesTheCounter() returns (s: State, run: seq<Action>)
    ensures Reached(s, START, run) && s.queue == [] && s.uncounted == 0
    ensures (forall c :: c in s.conns ==> s.conns[c].cbs.state == CsClosed) && s.counter == TWO_TO_THE_32 - 1
  {
    var s1, run1 := ReachClose();
    CloseIsHandled(s1);
    run := HandlesClose(s1, START, run1, 0);
    s := PopMessage(s1);
  }

  // ---------- a call of `accepted` after `stop_accepting` has returned ----------

  /** `stop_accepting` posts its message and returns; a connection that comes before it is handled is accepted. */
  lemma AcceptedAfterStopAcceptingReturned() returns (s: State, run: seq<Action>)
    ensures Reached(s, START, run) && run == [ClientStopsAccepting, HandlesListener([Newcomer(0, false, 0)])]
    ensures s.conns.Keys == {0} && s.conns[0].cbs.trace == [CallAccepted] && s.queue == [StopAccepting]
  {
    var n := Newcomer(0, false, 0);
    assert Reached(BLANK, START, []);
    ReachedNext(BLANK, START, [], ClientStopsAccepting);
    var s1 := Next(BLANK, ClientStopsAccepting);
    assert [] + [ClientStopsAccepting] == [ClientStopsAccepting];
    ReachedNext(s1, START, [ClientStopsAccepting], HandlesListener([n]));
    s, run := Next(s1, HandlesListener([n])), [ClientStopsAccepting] + [HandlesListener([n])];
    AcceptOne(s1, n);
  }

  // ---------- a request whose callback is never called ----------

  /** The same connection, closed. */
  ghost predicate WaitingClosed(s: State)
  {
    && s.queue == [] && s.outgoings == map[0 := [0]] && s.bws.maxBw == 0
    && 0 in s.conns && s.conns[0].cbs.state == CsClosed && s.conns[0].cbs.trace == [CallAccepted, CallClosed]
    && 0 in s.reqs && s.reqs[0].conn == 0 && s.reqs[0].wanted && s.reqs[0].reports == [] && s.reqs[0].phase == Pending
    && s.reqs[0].sent <= |s.reqs[0].data| && !s.reqs[0].broken
  }

  lemma WaitingIsClosed(s: State)
    requires Waiting(s) && !s.crashed && s.conns[0].recv
    ensures CloseConn(s, 0).queue == [Close(0)] && WaitingClosed(PopMessage(CloseConn(s, 0)))
  {
    assert [CallAccepted] + [CallClosed] == [CallAccepted, CallClosed];
    assert CloseConn(s, 0).queue[1..] == [];
  }

  lemma WaitingHasBuffer(s: State)
    requires Waiting(s) && Inv(s)
    ensures s.conns[0].recv && Enabled(s, ClientCloses(0)) && Orderly(s, ClientCloses(0))
  {
    assert ConnOk(s, 0);
  }

  lemma CloseWaiting(s: State, run: seq<Action>) returns (run': seq<Action>)
    requires Reached(s, START, run) && Waiting(s)
    ensures CloseConn(s, 0).queue == [Close(0)]
    ensures Reached(PopMessage(CloseConn(s, 0)), START, run') && WaitingClosed(PopMessage(CloseConn(s, 0)))
  {
    ReachedInv(s, START, run);
    WaitingHasBuffer(s);
    WaitingIsClosed(s);
    ReachedNext(s, START, run, ClientCloses(0));
    run' := HandlesClose(CloseConn(s, 0), START, run + [ClientCloses(0)], 0);
  }

  lemma ReachWaitingClosed() returns (s: State, run: seq<Action>)
    ensures Reached(s, START, run) && WaitingClosed(s) && Inv(s)
  {
    var s0, run0 := ReachWaiting();
    run := CloseWaiting(s0, run0);
    s := PopMessage(CloseConn(s0, 0));
    ReachedInv(s, START, run);
  }

  /** The next idle turn drops the request. */
  lemma WaitingIsDropped(s: State, fpu: Fpu)
    requires WaitingClosed(s)
    ensures var s' := Idle(s, Tour([0], CALM, CALM), fpu);
            && s'.outgoings == map[0 := []] && s'.queue == [] && s'.conns == s.conns
            && s'.reqs == s.reqs[0 := s.reqs[0].(phase := Dropped)]
  {
    var s1 := WithReq(s, 0, s.reqs[0].(phase := Dropped)).(outgoings := map[0 := []]);
    assert Without([0], 0) == [];
    assert Attempt(s, 0, 0, None, CALM) == SendOut(s1, None, true);
    assert [0][1..] == [];
    assert SendAll(s, [0], false, CALM) == s1;
    assert SendAll(s1, [0], true, CALM) == s1;
  }

  /**
   A client sends with a callback and closes the connection: `closed` has been called, the request is
   dropped, nothing is queued or on a list any more, and its callback was never called.
   */
  lemma ClosedBeforeSentCallback(fpu: Fpu) returns (s: State, run: seq<Action>)
    requires Sound(fpu)
    ensures Reached(s, START, run) && s.queue == [] && s.outgoings == map[0 := []]
    ensures 0 in s.conns && s.conns[0].cbs.trace == [CallAccepted, CallClosed]
    ensures 0 in s.reqs && s.reqs[0].conn == 0 && s.reqs[0].wanted && s.reqs[0].phase == Dropped && s.reqs[0].reports == []
  {
    var s0, run0 := ReachWaitingClosed();
    WaitingIsDropped(s0, fpu);
    assert Visits(s0, [0]);
    s, run := Step(s0, START, run0, Idles(Tour([0], CALM, CALM), fpu));
  }
}

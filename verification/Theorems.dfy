/** What the invariants mean for clients and for memory, in every reachable state of the Linux dispatcher. */
module DispatcherTheorems {
  import opened CallbackProtocol
  import opened DispatcherInvariant
  import opened DispatcherState
  import opened DispatcherSteps
  import opened EventStepProofs
  import opened Ids
  import opened ProgressProofs
  import opened ThreadStepProofs
  import opened WireOrderProofs
  import opened WireRunProofs

  // ---------- references ----------

  /**
   Exact reference accounting: clients' references, two for the open connection and its receive
   buffer, one while the created connection waits for the network, one per queued close, and one per
   send request that still exists.
   */
  lemma ReferencesAreExact(s: State, start: Start, run: seq<Action>, c: ConnId)
    requires Reached(s, start, run) && c in s.conns
    ensures var k := s.conns[c];
            k.refs == k.clientRefs
                    + (if k.cbs.state == CsClosed then 0 else if k.issued then 2 else 1)
                    + Count(k.registered && k.cbs.state == CsWait4Connect)
                    + InQueue(s, Close(c)) + InQueue(s, CloseWait(c))
                    + |Live(s.reqs, c)|
  {
    ReachedInv(s, start, run);
    assert ConnOk(s, c);
  }

  /** A connection is destroyed exactly when it is closed and nobody holds it any more. */
  lemma DestroyedWhenClosedAndUnheld(s: State, start: Start, run: seq<Action>, c: ConnId)
    requires Reached(s, start, run) && c in s.conns
    ensures s.conns[c].refs >= 0
    ensures s.conns[c].refs == 0 <==>
              && s.conns[c].cbs.state == CsClosed && s.conns[c].clientRefs == 0
              && Close(c) !in s.queue && CloseWait(c) !in s.queue
              && forall r :: r in s.reqs && s.reqs[r].conn == c ==> s.reqs[r].refs <= 0
  {
    ReachedInv(s, start, run);
    assert ConnOk(s, c);
    assert Close(c) in s.queue <==> Close(c) in multiset(s.queue);
    assert CloseWait(c) in s.queue <==> CloseWait(c) in multiset(s.queue);
    if forall r :: r in s.reqs && s.reqs[r].conn == c ==> s.reqs[r].refs <= 0 {
      assert Live(s.reqs, c) == {};
    } else {
      var r :| r in s.reqs && s.reqs[r].conn == c && s.reqs[r].refs > 0;
      assert r in Live(s.reqs, c);
    }
  }

  /** The objects a message leads to still exist. */
  predicate Alive(s: State, m: Msg)
  {
    match m
    case StopAccepting => true
    case Create(c) => c in s.conns && s.conns[c].refs > 0
    case Close(c) => c in s.conns && s.conns[c].refs > 0
    case CloseWait(c) => c in s.conns && s.conns[c].refs > 0
    case SendRequest(r) => ReqAlive(s, r)
    case BreakSend(r) => ReqAlive(s, r)
  }

  predicate ReqAlive(s: State, r: ReqId)
  {
    r in s.reqs && s.reqs[r].refs > 0 && s.reqs[r].conn in s.conns && s.conns[s.reqs[r].conn].refs > 0
  }

  lemma ReqKeepsConn(s: State, r: ReqId)
    requires Inv(s) && r in s.reqs && s.reqs[r].refs > 0
    ensures ReqAlive(s, r)
  {
    assert ReqKnown(s, r) && ConnOk(s, s.reqs[r].conn);
    assert r in Live(s.reqs, s.reqs[r].conn);
  }

  /** Nothing the dispatcher will touch has been destroyed: queued messages, pending lists, open connections. */
  lemma NothingDestroyedIsReachable(s: State, start: Start, run: seq<Action>)
    requires Reached(s, start, run)
    ensures forall i :: 0 <= i < |s.queue| ==> Alive(s, s.queue[i])
    ensures forall c, i :: c in s.outgoings && 0 <= i < |s.outgoings[c]| ==> ReqAlive(s, s.outgoings[c][i])
    ensures forall c :: c in s.conns && s.conns[c].cbs.state != CsClosed ==> s.conns[c].refs > 0
  {
    ReachedInv(s, start, run);
    forall i | 0 <= i < |s.queue|
      ensures Alive(s, s.queue[i])
    {
      MessageAlive(s, i);
    }
    forall c, i | c in s.outgoings && 0 <= i < |s.outgoings[c]|
      ensures ReqAlive(s, s.outgoings[c][i])
    {
      PendingAlive(s, c, i);
    }
    forall c | c in s.conns && s.conns[c].cbs.state != CsClosed
      ensures s.conns[c].refs > 0
    {
      assert ConnOk(s, c);
    }
  }

  lemma MessageAlive(s: State, i: nat)
    requires Inv(s) && i < |s.queue|
    ensures Alive(s, s.queue[i])
  {
    assert s.queue[i] in multiset(s.queue) && Known(s, s.queue[i]);
    match s.queue[i]
    case StopAccepting =>
    case Create(c) => assert ConnOk(s, c);
    case Close(c) => assert ConnOk(s, c);
    case CloseWait(c) => assert ConnOk(s, c);
    case SendRequest(r) =>
      assert ReqOk(s, r);
      ReqKeepsConn(s, r);
    case BreakSend(r) =>
      assert ReqOk(s, r);
      ReqKeepsConn(s, r);
  }

  lemma PendingAlive(s: State, c: ConnId, i: nat)
    requires Inv(s) && c in s.outgoings && i < |s.outgoings[c]|
    ensures ReqAlive(s, s.outgoings[c][i])
  {
    assert ListKnown(s, c, s.outgoings[c]);
    assert ReqOk(s, s.outgoings[c][i]);
    ReqKeepsConn(s, s.outgoings[c][i]);
  }

  /**
   Lifetime of a send request: the client's reference until it is released, the dispatcher's own
   until the request is completed or has failed, and one per queued break. A request that a closed
   connection dropped keeps the dispatcher's reference for ever.
   */
  lemma RequestReferencesAreExact(s: State, start: Start, run: seq<Action>, r: ReqId)
    requires Reached(s, start, run) && r in s.reqs
    ensures s.reqs[r].refs == Count(s.reqs[r].clientRef)
                            + (if s.reqs[r].phase == Done || s.reqs[r].phase == Failed then 0 else 1)
                            + InQueue(s, BreakSend(r))
    ensures s.reqs[r].phase == Dropped ==> s.reqs[r].refs > 0
  {
    ReachedInv(s, start, run);
    assert ReqOk(s, r);
  }

  // ---------- close_conn_wait ----------

  /** A post on the semaphore comes after the closing and its callback, and none is lost. */
  lemma WaitersAreResumed(s: State, start: Start, run: seq<Action>, c: ConnId)
    requires Reached(s, start, run) && c in s.conns
    ensures s.conns[c].closeSem > 0 ==> s.conns[c].cbs.state == CsClosed && Over(s.conns[c].cbs.trace)
    ensures s.conns[c].waiters == InQueue(s, CloseWait(c)) + s.conns[c].closeSem
    ensures s.queue == [] ==> s.conns[c].closeSem == s.conns[c].waiters
    ensures s.conns[c].waiters > 0 ==> s.conns[c].refs > 0
  {
    ReachedInv(s, start, run);
    assert ConnOk(s, c);
    AutomatonIsLanguage(s.conns[c].cbs.trace);
  }

  /** The semaphore that is posted after the last release of a close still exists. */
  lemma PostIsSafe(s: State, start: Start, run: seq<Action>, c: ConnId)
    requires Reached(s, start, run) && |s.queue| > 0 && s.queue[0] == CloseWait(c) && c in s.conns
    requires !CloseConnection(s, c).crashed
    ensures Unref(CloseConnection(s, c), c).conns[c].refs > 0
  {
    ReachedInv(s, start, run);
    assert ConnOk(s, c);
    assert s.queue[0] in multiset(s.queue);
    if s.conns[c].issued {
      ClosingIsRegistered(s, c);
    }
  }

  // ---------- callbacks ----------

  /** Every connection's calls are a prefix of the promised ones, and its state says how far they have come. */
  lemma CallbacksKeepTheProtocol(s: State, start: Start, run: seq<Action>, c: ConnId)
    requires Reached(s, start, run) && c in s.conns
    ensures InLanguage(s.conns[c].cbs.trace)
    ensures s.conns[c].cbs.state == CsWait4Connect <==> s.conns[c].cbs.trace == []
    ensures s.conns[c].cbs.state == CsConnected <==> Talking(s.conns[c].cbs.trace)
    ensures s.conns[c].cbs.state == CsClosed <==> Over(s.conns[c].cbs.trace)
  {
    ReachedInv(s, start, run);
    assert ConnOk(s, c);
    AutomatonIsLanguage(s.conns[c].cbs.trace);
  }

  /** From any reachable state on, calls are only added, states only move forward, and a closed connection is left alone. */
  lemma CallbacksOnlyMoveForward(s: State, start: Start, before: seq<Action>, after: seq<Action>, c: ConnId)
    requires Reached(s, start, before) && c in s.conns
    requires OrderlyRun(s, after) && ValidRun(s, after)
    ensures c in After(s, after).conns
    ensures Later(s.conns[c].cbs, After(s, after).conns[c].cbs)
  {
    ReachedInv(s, start, before);
    RunFollows(s, after);
  }

  // ---------- a connect that fails at once ----------

  lemma ClosingMessage(s: State, c: ConnId)
    requires Inv(s) && c in s.conns && |s.queue| > 0 && Closes(s.queue[0], c)
    ensures Enabled(s, HandlesMessage) && (PopMessage(s).crashed <==> !s.conns[c].issued)
  {
    MessageCrashes(s);
  }

  lemma ClosingAsItStands(s: State, c: ConnId)
    requires c in s.conns && !s.crashed && s.conns[c].cbs.state != CsClosed
    ensures CloseConnection(s, c).crashed <==> !s.conns[c].recv
  {
  }

  /**
   Closing releases the receive buffer without a look whether there is one: in every reachable state
   it finds one exactly when the connect of the connection did not fail at once. The reactor reports
   events only for connections that have one, so the closings that crash are those of clients.
   */
  lemma ClosingFindsTheBuffer(s: State, start: Start, run: seq<Action>, c: ConnId)
    requires Reached(s, start, run) && c in s.conns && s.conns[c].cbs.state != CsClosed
    ensures s.conns[c].recv <==> s.conns[c].issued
    ensures CloseConnection(s, c).crashed <==> !s.conns[c].issued
    ensures s.conns[c].registered ==> s.conns[c].issued
    ensures |s.queue| > 0 && Closes(s.queue[0], c) ==>
              Enabled(s, HandlesMessage) && (PopMessage(s).crashed <==> !s.conns[c].issued)
  {
    ReachedInv(s, start, run);
    assert LifeOk(s, c) by {
      assert ConnOk(s, c);
    }
    ClosingAsItStands(s, c);
    if |s.queue| > 0 && Closes(s.queue[0], c) {
      ClosingMessage(s, c);
    }
  }

  /** Every run that the process survives, and in which the kernel reports in time, leads to a reached state. */
  lemma SurvivedIsReached(start: Start, run: seq<Action>)
    requires TimelyRun(Initial(start), run) && ValidRun(Initial(start), run) && !After(Initial(start), run).crashed
    ensures Reached(After(Initial(start), run), start, run)
  {
    InitialInv(start.total, start.unset, start.now);
    LiveRunsAreOrderly(Initial(start), run);
  }

  /** Dialled, but the `connect` failed at once: the client is not told. */
  predicate FailedAtOnce(s: State, c: ConnId)
  {
    c in s.conns && s.conns[c].dialled && !s.conns[c].issued
  }

  /** A connection whose connect failed at once hears nothing in any run that the process survives. */
  lemma FailedConnectIsSilent(s: State, start: Start, before: seq<Action>, after: seq<Action>, c: ConnId)
    requires Reached(s, start, before) && FailedAtOnce(s, c)
    requires TimelyRun(s, after) && ValidRun(s, after) && !After(s, after).crashed
    ensures FailedAtOnce(After(s, after), c)
    ensures After(s, after).conns[c].cbs.trace == [] && After(s, after).conns[c].cbs.state == CsWait4Connect
  {
    ReachedInv(s, start, before);
    LiveRunsAreOrderly(s, after);
    RunInv(s, after);
    RunFollows(s, after);
    assert ConnOk(After(s, after), c);
    AutomatonIsLanguage(After(s, after).conns[c].cbs.trace);
  }

  /** The close a client asks for tells it of the refusal and ends the process, whenever it is handled. */
  lemma ClosingAFailedConnect(s: State, start: Start, run: seq<Action>, c: ConnId)
    requires Reached(s, start, run) && FailedAtOnce(s, c)
    requires |s.queue| > 0 && Closes(s.queue[0], c)
    ensures Enabled(s, HandlesMessage) && PopMessage(s).crashed
    ensures c in PopMessage(s).conns && PopMessage(s).conns[c].cbs.trace == [CallRefused]
    ensures forall a :: !Enabled(PopMessage(s), a)
  {
    ReachedInv(s, start, run);
    assert ConnOk(s, c);
    MessageCrashes(s);
    AutomatonIsLanguage(s.conns[c].cbs.trace);
  }

  // ---------- no accepting after it has been stopped ----------

  /** Once the message of `stop_accepting` has been handled, no step of any run accepts a connection. */
  lemma NobodyAcceptedAfterTheStop(s: State, start: Start, before: seq<Action>, after: seq<Action>)
    requires Reached(s, start, before) && |s.queue| > 0 && s.queue[0] == StopAccepting
    requires Enabled(s, HandlesMessage) && OrderlyRun(PopMessage(s), after)
    ensures ValidRun(PopMessage(s), after)
    ensures forall c :: c in After(PopMessage(s), after).conns && After(PopMessage(s), after).conns[c].origin == FromListener ==>
              c in s.conns && s.conns[c].origin == FromListener
  {
    ReachedInv(s, start, before);
    StopIsHandled(s);
    RunFollows(PopMessage(s), after);
  }

  lemma StopIsHandled(s: State)
    requires Inv(s) && |s.queue| > 0 && s.queue[0] == StopAccepting
    ensures Enabled(s, HandlesMessage) && Inv(PopMessage(s))
    ensures !PopMessage(s).accepted && PopMessage(s).conns == s.conns
  {
    PopMessageInv(s);
  }

  // ---------- the result of a send ----------

  /** A request without bytes is never completed, although nothing of it is left to send. */
  lemma EmptyRequestsNeverComplete(s: State, start: Start, run: seq<Action>, r: ReqId)
    requires Reached(s, start, run) && r in s.reqs && s.reqs[r].data == []
    ensures s.reqs[r].phase != Done && s.reqs[r].reports != [true]
  {
    ReachedInv(s, start, run);
    assert ReqOk(s, r);
  }

  /**
   The callback of a request is called at most once; it has been called exactly when the request was
   completed, has failed or a break for it was handled, and with true only when the last byte was accepted.
   */
  lemma SentCallbackIsExact(s: State, start: Start, run: seq<Action>, r: ReqId)
    requires Reached(s, start, run) && r in s.reqs
    ensures |s.reqs[r].reports| <= 1
    ensures s.reqs[r].reports != [] <==> s.reqs[r].wanted && (s.reqs[r].phase == Done || s.reqs[r].phase == Failed || s.reqs[r].broken)
    ensures s.reqs[r].sentCb <==> s.reqs[r].wanted && s.reqs[r].reports == []
    ensures s.reqs[r].reports == [true] ==> s.reqs[r].phase == Done && s.reqs[r].Full()
    ensures s.reqs[r].reports == [true] <== s.reqs[r].wanted && s.reqs[r].phase == Done && !s.reqs[r].broken
  {
    ReachedInv(s, start, run);
    assert ReqOk(s, r);
    OneReport(s.reqs[r].reports);
  }

  lemma OneReport(reports: seq<bool>)
    requires |reports| <= 1
    ensures reports == [] || reports == [true] || reports == [false]
  {
    if reports != [] {
      if reports[0] {
        assert reports == [true];
      } else {
        assert reports == [false];
      }
    }
  }

  /**
   Not every callback comes before `closed`: on a connection that has been closed, the ones that were
   not called are exactly those of the requests still in the queue, still on the list or dropped,
   unless a break was handled for them.
   */
  lemma UnheardAfterClosed(s: State, start: Start, run: seq<Action>, c: ConnId, r: ReqId)
    requires Reached(s, start, run) && r in s.reqs && s.reqs[r].conn == c
    requires c in s.conns && Over(s.conns[c].cbs.trace) && s.reqs[r].wanted
    ensures s.reqs[r].reports == [] <==>
              !s.reqs[r].broken && (s.reqs[r].phase == Queued || s.reqs[r].phase == Pending || s.reqs[r].phase == Dropped)
  {
    SentCallbackIsExact(s, start, run, r);
  }

  lemma {:induction false} FinishedKeepsOrder(reqs: map<ReqId, Req>, order: seq<ReqId>, a: nat, b: nat) returns (i: nat, j: nat)
    requires AllIn(reqs, order) && a < b < |order|
    requires reqs[order[a]].phase == Done && reqs[order[b]].phase == Done
    ensures i < j < |Finished(reqs, order)|
    ensures Finished(reqs, order)[i] == order[a] && Finished(reqs, order)[j] == order[b]
  {
    var init := order[..|order| - 1];
    if b < |init| {
      i, j := FinishedKeepsOrder(reqs, init, a, b);
    } else {
      i := FinishedIn(reqs, init, a);
      j := |Finished(reqs, init)|;
    }
  }

  lemma {:induction false} FinishedIn(reqs: map<ReqId, Req>, order: seq<ReqId>, a: nat) returns (i: nat)
    requires AllIn(reqs, order) && a < |order| && reqs[order[a]].phase == Done
    ensures i < |Finished(reqs, order)| && Finished(reqs, order)[i] == order[a]
  {
    var init := order[..|order| - 1];
    if a < |init| {
      i := FinishedIn(reqs, init, a);
    } else {
      i := |Finished(reqs, init)|;
    }
  }

  /** Completions on one connection, and so the true reports, come in the order of the `send` calls. */
  lemma CompletionsInOrder(s: State, start: Start, run: seq<Action>, c: ConnId, a: nat, b: nat) returns (i: nat, j: nat)
    requires Reached(s, start, run) && QuietRun(run) && c in s.conns
    requires a < b < |s.conns[c].order|
    requires forall t :: t in [s.conns[c].order[a], s.conns[c].order[b]] ==> t in s.reqs && s.reqs[t].phase == Done
    ensures s.conns[c].order <= s.conns[c].calls
    ensures i < j < |s.conns[c].doneLog|
    ensures s.conns[c].doneLog[i] == s.conns[c].order[a] && s.conns[c].doneLog[j] == s.conns[c].order[b]
  {
    NoInterleaving(s, start, run, c);
    var k := s.conns[c];
    forall x | 0 <= x < |k.order|
      ensures k.order[x] in s.reqs && s.reqs[k.order[x]].sent <= |s.reqs[k.order[x]].data|
    {
      assert k.order[x] == k.calls[x];
    }
    assert k.order[a] in [k.order[a], k.order[b]] && k.order[b] in [k.order[a], k.order[b]];
    i, j := FinishedKeepsOrder(s.reqs, k.order, a, b);
  }

  // ---------- the socket counter ----------

  lemma ReachedCounter(s: State, start: Start, run: seq<Action>)
    requires Reached(s, start, run)
    ensures s.counter == Wrap(|OpenCounted(s.conns)| - s.uncounted - |ClosedUncounted(s.conns)|)
  {
    InitialInv(start.total, start.unset, start.now);
    assert OpenCounted(map[]) == {} && ClosedUncounted(map[]) == {};
    RunFollows(Initial(start), run);
  }

  /** Only one-call connects and accepted connections. */
  predicate OneCallOnly(s: State)
  {
    forall c :: c in s.conns ==> s.conns[c].origin != TwoCall
  }

  function OpenConns(conns: map<ConnId, Conn>): set<ConnId>
  {
    set c | c in conns && conns[c].cbs.state != CsClosed
  }

  /** Without two-call connects the counter, with the connects still to be counted, is the number of open connections. */
  lemma CounterIsBalanced(s: State, start: Start, run: seq<Action>)
    requires Reached(s, start, run) && OneCallOnly(s)
    ensures Wrap(s.counter + s.uncounted) == Wrap(|OpenConns(s.conns)|)
  {
    ReachedCounter(s, start, run);
    assert ClosedUncounted(s.conns) == {};
    assert OpenCounted(s.conns) == OpenConns(s.conns);
    WrapMoves(|OpenConns(s.conns)| - s.uncounted, s.uncounted);
  }

  /** The destructor's assertion, once every connection is closed and counted, fails exactly on two-call connects. */
  lemma DestructorAssertion(s: State, start: Start, run: seq<Action>)
    requires Reached(s, start, run) && s.uncounted == 0
    requires forall c :: c in s.conns ==> s.conns[c].cbs.state == CsClosed
    ensures s.counter == 0 <==> |set c | c in s.conns && s.conns[c].origin == TwoCall| % TWO_TO_THE_32 == 0
  {
    ReachedCounter(s, start, run);
    assert OpenCounted(s.conns) == {};
    assert ClosedUncounted(s.conns) == set c | c in s.conns && s.conns[c].origin == TwoCall;
    WrapOfMinus(|ClosedUncounted(s.conns)|);
  }

  lemma WrapOfMinus(n: nat)
    ensures Wrap(0 - n) == 0 <==> n % TWO_TO_THE_32 == 0
  {
  }
}

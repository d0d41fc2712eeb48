/** Over every run in which the kernel stays quiet during walks, no connection's bytes interleave. */
module WireRunProofs {
  import opened Bandwidth
  import opened CallbackProtocol
  import opened Clock
  import opened DispatcherInvariant
  import opened DispatcherState
  import opened DispatcherSteps
  import opened EventStepProofs
  import opened FloatModel
  import opened Ids
  import opened SendStepProofs
  import opened ThreadStepProofs
  import opened WireOrderProofs
  import opened WireStepProofs
  import opened WireWalkProofs

  // ---------- steps that send nothing ----------

  /** Only fields that the wires do not depend on changed. */
  lemma BystanderQuiet(s: State, s': State)
    requires s' == s.(bws := s'.bws, counter := s'.counter, uncounted := s'.uncounted, now := s'.now, accepted := s'.accepted)
    ensures QuietStep(s, s')
  {
  }

  /** One connection changed, but not its wire. */
  lemma ConnQuiet(s: State, s': State, c: ConnId)
    requires c in s'.conns
    requires s' == s.(conns := s.conns[c := s'.conns[c]], bws := s'.bws, counter := s'.counter,
                      uncounted := s'.uncounted, now := s'.now, queue := s'.queue, crashed := s'.crashed)
    requires QuietQueue(s.queue, s'.queue)
    requires SameWire(if c in s.conns then s.conns[c] else NewConn(UNDIALLED, 0, false, IDLE_SOCK, TwoCall, false, false), s'.conns[c])
    ensures QuietStep(s, s')
  {
  }

  /** A request and its connection changed, but only their books. */
  lemma UnrefReqQuiet(s: State, s0: State, s': State, r: ReqId, q: Req)
    requires ReqKnown(s0, r) && SimilarReq(s0.reqs[r], q) && s0 == s.(queue := s0.queue)
    requires QuietQueue(s.queue, s0.queue)
    requires s' == UnrefReq(WithReq(s0, r, q), r)
    ensures QuietStep(s, s')
  {
    UnrefShape2(s0, s', r, q);
  }

  lemma CloseQuiet(s: State, c: ConnId)
    requires c in s.conns
    ensures QuietStep(s, CloseConnection(s, c))
  {
    ClosedShape(s, c);
    ClosingWire(s, c);
    ConnQuiet(s, CloseConnection(s, c), c);
  }

  lemma ClosingWire(s: State, c: ConnId)
    requires c in s.conns
    ensures SameWire(s.conns[c], CloseConnection(s, c).conns[c])
  {
  }

  lemma CloseMessageQuiet(s: State, c: ConnId)
    requires |s.queue| > 0 && c in s.conns && (s.queue[0] == Close(c) || s.queue[0] == CloseWait(c))
    ensures QuietStep(s, PopMessage(s))
  {
    CloseShape(s.(queue := s.queue[1..]), c, s.queue[0]);
    ClosedWire(s.(queue := s.queue[1..]), c, s.queue[0]);
    ConnQuiet(s, PopMessage(s), c);
  }

  lemma ClosedWire(s: State, c: ConnId, m: Msg)
    requires c in s.conns && Closes(m, c)
    ensures SameWire(s.conns[c], Handle(s, m).conns[c])
  {
    ClosingWire(s, c);
    AfterClosing(CloseConnection(s, c), c, m, Handle(s, m));
  }

  lemma PopMessageQuiet(s: State)
    requires |s.queue| > 0 && Known(s, s.queue[0]) && !s.queue[0].SendRequest?
    requires s.queue[0].BreakSend? ==> ReqKnown(s, s.queue[0].r)
    ensures QuietStep(s, PopMessage(s))
  {
    match s.queue[0]
    case StopAccepting =>
    case Create(c) => ConnQuiet(s, PopMessage(s), c);
    case Close(c) => CloseMessageQuiet(s, c);
    case CloseWait(c) => CloseMessageQuiet(s, c);
    case BreakSend(r) => UnrefReqQuiet(s, s.(queue := s.queue[1..]), PopMessage(s), r, s.reqs[r].Reported(false).(broken := true));
  }

  lemma PopMessageWires(s: State)
    requires Inv(s) && |s.queue| > 0 && AllWiresOk(s)
    requires Known(s, s.queue[0])
    requires s.queue[0].SendRequest? || s.queue[0].BreakSend? ==> ReqKnown(s, s.queue[0].r)
    ensures AllWiresOk(PopMessage(s))
  {
    if s.queue[0].SendRequest? {
      EnlistWires(s, s.queue[0].r);
    } else {
      PopMessageQuiet(s);
      QuietStepKeepsTheWires(s, PopMessage(s));
    }
  }

  lemma EnlistWires(s: State, r: ReqId)
    requires Inv(s) && |s.queue| > 0 && s.queue[0] == SendRequest(r) && ReqKnown(s, r) && AllWiresOk(s)
    ensures AllWiresOk(PopMessage(s))
  {
    QueuedRequest(s, r);
    EnlistedIsEnlistStep(s, r);
    PopMessageInv(s);
    EnlistedWires(s, PopMessage(s), s.reqs[r].conn, r);
  }

  lemma QueuedRequest(s: State, r: ReqId)
    requires Inv(s) && |s.queue| > 0 && s.queue[0] == SendRequest(r) && ReqKnown(s, r)
    ensures s.reqs[r].phase == Queued && s.reqs[r].sent == 0
  {
    assert s.queue[0] in multiset(s.queue);
    assert ReqOk(s, r);
  }

  // ---------- events, accepting, idle turns ----------

  lemma EstablishedWires(s: State, c: ConnId)
    requires Inv(s) && AllWiresOk(s) && c in s.conns
    ensures AllWiresOk(ConnectionEstablished(s, c))
  {
    if s.conns[c].cbs.connected {
      ConnQuiet(s, ConnectionEstablished(s, c), c);
      QuietStepKeepsTheWires(s, ConnectionEstablished(s, c));
    }
  }

  lemma SwitchedWires(s: State, c: ConnId)
    requires Inv(s) && AllWiresOk(s)
    ensures AllWiresOk(s.(bws := Switched(s.bws, c, true)))
  {
    BystanderQuiet(s, s.(bws := Switched(s.bws, c, true)));
    QuietStepKeepsTheWires(s, s.(bws := Switched(s.bws, c, true)));
  }

  lemma SwitchedOnWires(s: State, c: ConnId, w: World)
    requires Inv(s) && AllWiresOk(s) && Quiet(w)
    ensures AllWiresOk(SendList(s.(bws := Switched(s.bws, c, true)), c, 0, None, w))
  {
    SwitchedInv(s, c);
    SwitchedWires(s, c);
    SendListKeepsTheWires(s.(bws := Switched(s.bws, c, true)), c, 0, None, w);
  }

  lemma WriteEventWires(s: State, c: ConnId, w: World)
    requires Inv(s) && AllWiresOk(s) && c in s.conns && Quiet(w)
    ensures AllWiresOk(WriteEvent(s, c, w))
  {
    WriteEventCases(s, c, w);
    EstablishedWires(s, c);
    SwitchedWires(s, c);
    SwitchedOnWires(s, c, w);
  }

  lemma SwitchedInv(s: State, c: ConnId)
    requires Inv(s)
    ensures Inv(s.(bws := Switched(s.bws, c, true)))
  {
    ClientStepProofs.BystanderInv(s, s.(bws := Switched(s.bws, c, true)));
  }

  lemma RecvEventQuiet(s: State, c: ConnId, res: RecvResult)
    requires c in s.conns
    ensures QuietStep(s, RecvEvent(s, c, res))
  {
    var (cbs, open) := DoRecv(s.conns[c].cbs, res);
    var s' := WithConn(s, c, s.conns[c].(cbs := cbs));
    if open {
      ConnQuiet(s, s', c);
    } else {
      ClosedShape(s', c);
      ClosingWire(s', c);
      ReceivedShape(s, s', CloseConnection(s', c), c);
      ConnQuiet(s, CloseConnection(s', c), c);
    }
  }

  lemma ReceivedShape(s: State, s1: State, s2: State, c: ConnId)
    requires c in s.conns && c in s1.conns && c in s2.conns && s1 == WithConn(s, c, s1.conns[c]) && s2.conns == s1.conns[c := s2.conns[c]]
    ensures s2.conns == s.conns[c := s2.conns[c]]
  {
  }

  lemma EventWires(s: State, e: NetEvent)
    requires Inv(s) && AllWiresOk(s) && Enabled(s, HandlesEvent(e)) && !EarlyData(s, e) && Quiet(e.w)
    ensures AllWiresOk(Event(s, e))
  {
    var s0 := Delivered(s, e.c, e.write);
    DeliveredInv(s, e.c, e.write);
    if e.write {
      ConnQuiet(s, s0, e.c);
      QuietStepKeepsTheWires(s, s0);
    }
    if e.close {
      CloseQuiet(s0, e.c);
      QuietStepKeepsTheWires(s0, Event(s, e));
    } else if e.write {
      var s1 := WriteEvent(s0, e.c, e.w);
      WriteEventInv(s0, e.c, e.w);
      WriteEventWires(s0, e.c, e.w);
      if e.read {
        RecvEventQuiet(s1, e.c, e.res);
        QuietStepKeepsTheWires(s1, Event(s, e));
      }
    } else if e.read {
      RecvEventQuiet(s0, e.c, e.res);
      QuietStepKeepsTheWires(s0, Event(s, e));
    }
  }

  lemma {:induction false} AcceptAllWires(s: State, news: seq<Newcomer>)
    requires Inv(s) && AllWiresOk(s) && FreshNewcomers(s, news)
    ensures AllWiresOk(AcceptAll(s, news))
    decreases |news|
  {
    if |news| > 0 {
      var init, last := news[..|news| - 1], news[|news| - 1];
      AcceptAllWires(s, init);
      AcceptAllInv(s, init);
      var s1 := AcceptAll(s, init);
      assert last.c !in s1.conns;
      AcceptQuiet(s1, last);
      QuietStepKeepsTheWires(s1, AcceptConnection(s1, last));
    }
  }

  lemma AcceptQuiet(s: State, n: Newcomer)
    requires n.c !in s.conns
    ensures QuietStep(s, AcceptConnection(s, n))
  {
    if s.accepted {
      ConnQuiet(s, AcceptConnection(s, n), n.c);
    }
  }

  lemma LimitedTurnWires(s: State, tour: Tour, fpu: Fpu)
    requires Inv(s) && AllWiresOk(s) && Quiet(tour.second)
    ensures AllWiresOk(LimitedTurn(s, tour, fpu))
  {
    var s' := s.(bws := Recalculated(s.bws, OfMs(s.now), fpu));
    BystanderQuiet(s, s');
    QuietStepKeepsTheWires(s, s');
    ClientStepProofs.BystanderInv(s, s');
    if s.bws.maxBw == 0 {
      SendAllKeepsTheWires(s, tour.order, true, tour.second);
    } else {
      SendAllKeepsTheWires(s', tour.order, true, tour.second);
    }
  }

  lemma IdleWires(s: State, tour: Tour, fpu: Fpu)
    requires Inv(s) && AllWiresOk(s) && Quiet(tour.first) && Quiet(tour.second)
    ensures AllWiresOk(Idle(s, tour, fpu))
  {
    if s.bws.maxBw == 0 {
      SendAllInv(s, tour.order, false, tour.first);
      SendAllKeepsTheWires(s, tour.order, false, tour.first);
      LimitedTurnWires(SendAll(s, tour.order, false, tour.first), tour, fpu);
    } else {
      LimitedTurnWires(s, tour, fpu);
    }
  }

  // ---------- every step and every run ----------

  /** During walks the kernel gives no new room. */
  ghost predicate QuietAction(a: Action)
  {
    && (a.HandlesEvent? ==> Quiet(a.e.w))
    && (a.Idles? ==> Quiet(a.tour.first) && Quiet(a.tour.second))
  }

  ghost predicate QuietRun(run: seq<Action>)
  {
    forall i :: 0 <= i < |run| ==> QuietAction(run[i])
  }

  lemma MakerQuiet(s: State, a: Action)
    requires Enabled(s, a) && (a.ClientMakes? || a.ClientDials? || a.ClientConnects?)
    ensures QuietStep(s, Next(s, a))
  {
    ConnQuiet(s, Next(s, a), a.c);
  }

  lemma HolderQuiet(s: State, a: Action)
    requires Enabled(s, a)
    requires a.ClientCloses? || a.ClientClosesAndWaits? || a.ClientResumes? || a.ClientAddrefs? || a.ClientReleases?
          || a.RoomGrows? || a.SocketBreaks?
    ensures QuietStep(s, Next(s, a))
  {
    ConnQuiet(s, Next(s, a), a.c);
  }

  lemma ClientQuiet(s: State, a: Action)
    requires Enabled(s, a) && !a.ClientSends?
    requires !a.HandlesMessage? && !a.HandlesEvent? && !a.HandlesListener? && !a.Idles?
    ensures QuietStep(s, Next(s, a))
  {
    if a.ClientReleasesReq? {
      UnrefReqQuiet(s, s, Next(s, a), a.r, s.reqs[a.r].(clientRef := false));
    } else if a.ClientBreaks? || a.ClientStopsAccepting? {
    } else if a.ClientCounts? || a.ClientSetsLimit? || a.TimePasses? {
      BystanderQuiet(s, Next(s, a));
    } else if a.ClientMakes? || a.ClientDials? || a.ClientConnects? {
      MakerQuiet(s, a);
    } else {
      HolderQuiet(s, a);
    }
  }

  lemma ClientWires(s: State, a: Action)
    requires Inv(s) && AllWiresOk(s) && Enabled(s, a)
    requires !a.HandlesMessage? && !a.HandlesEvent? && !a.HandlesListener? && !a.Idles?
    ensures AllWiresOk(Next(s, a))
  {
    if a.ClientSends? {
      SendWires(s, Next(s, a), a.c, a.r);
    } else {
      ClientQuiet(s, a);
      QuietStepKeepsTheWires(s, Next(s, a));
    }
  }

  lemma MessageWires(s: State)
    requires Inv(s) && AllWiresOk(s) && Enabled(s, HandlesMessage)
    ensures AllWiresOk(Next(s, HandlesMessage))
  {
    NextMessageKnown(s);
    PopMessageWires(s);
  }

  lemma EventStepWires(s: State, e: NetEvent)
    requires Inv(s) && AllWiresOk(s) && Enabled(s, HandlesEvent(e)) && Orderly(s, HandlesEvent(e)) && Quiet(e.w)
    ensures AllWiresOk(Next(s, HandlesEvent(e)))
  {
    EventWires(s, e);
  }

  lemma IdleStepWires(s: State, tour: Tour, fpu: Fpu)
    requires Inv(s) && AllWiresOk(s) && Enabled(s, Idles(tour, fpu)) && Quiet(tour.first) && Quiet(tour.second)
    ensures AllWiresOk(Next(s, Idles(tour, fpu)))
  {
    IdleWires(s, tour, fpu);
  }

  lemma ListenerStepWires(s: State, news: seq<Newcomer>)
    requires Inv(s) && AllWiresOk(s) && Enabled(s, HandlesListener(news))
    ensures AllWiresOk(Next(s, HandlesListener(news)))
  {
    AcceptAllWires(s, news);
  }

  lemma ThreadWires(s: State, a: Action)
    requires Inv(s) && AllWiresOk(s) && Enabled(s, a) && Orderly(s, a) && QuietAction(a)
    requires a.HandlesEvent? || a.HandlesListener? || a.Idles?
    ensures AllWiresOk(Next(s, a))
  {
    match a
    case HandlesEvent(e) => EventStepWires(s, e);
    case HandlesListener(news) => ListenerStepWires(s, news);
    case Idles(tour, fpu) => IdleStepWires(s, tour, fpu);
  }

  lemma StepWires(s: State, a: Action)
    requires Inv(s) && AllWiresOk(s) && Enabled(s, a) && Orderly(s, a) && QuietAction(a)
    ensures AllWiresOk(Next(s, a))
  {
    if a.HandlesMessage? {
      MessageWires(s);
    } else if a.HandlesEvent? || a.HandlesListener? || a.Idles? {
      ThreadWires(s, a);
    } else {
      ClientWires(s, a);
    }
  }

  lemma {:induction false} RunWires(s: State, run: seq<Action>)
    requires Inv(s) && AllWiresOk(s) && OrderlyRun(s, run) && QuietRun(run)
    ensures ValidRun(s, run) && AllWiresOk(After(s, run))
    decreases |run|
  {
    if |run| > 0 {
      StepInv(s, run[0]);
      StepWires(s, run[0]);
      RunWires(Next(s, run[0]), run[1..]);
    }
  }

  /**
   No interleaving, over all runs from the start: whatever clients, kernel and dispatcher do, the
   bytes a socket has accepted are a prefix of the requests' data in the order of the `send` calls,
   and `sent_cb(true)` comes in that order.
   */
  lemma NoInterleaving(s: State, start: Start, run: seq<Action>, c: ConnId)
    requires Reached(s, start, run) && QuietRun(run) && c in s.conns
    ensures AllIn(s.reqs, s.conns[c].calls)
    ensures s.conns[c].wire <= Whole(s.reqs, s.conns[c].calls)
    ensures s.conns[c].order <= s.conns[c].calls
    ensures s.conns[c].doneLog == Finished(s.reqs, s.conns[c].order)
  {
    InitialInv(start.total, start.unset, start.now);
    RunInv(Initial(start), run);
    RunWires(Initial(start), run);
    assert WireOk(s, c);
    WireIsPrefixOfRequests(s, c);
  }
}

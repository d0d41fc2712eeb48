/** Steps in which no byte is sent put nothing new into anybody's window. */
module CalmStepProofs {
  import opened Bandwidth
  import opened BandwidthTheorems
  import opened CallbackProtocol
  import opened Clock
  import opened DispatcherInvariant
  import opened DispatcherState
  import opened DispatcherSteps
  import opened EventStepProofs
  import opened FloatModel
  import opened Ids
  import opened LedgerProofs
  import opened SendStepProofs
  import opened ThreadStepProofs
  import opened TrackingProofs

  function TimeOf(s: State): Timeb
  {
    OfMs(s.now)
  }

  /** The limiter's books are sound. */
  ghost predicate BankOk(s: State)
  {
    AccountsOk(s.bws, TimeOf(s))
  }

  /** Bytes sent by tracked connections within the last second, from the full history. */
  ghost function InWindow(s: State): nat
  {
    Window(s.bws, TimeOf(s))
  }

  ghost predicate CalmAt(s: State, s': State, c: ConnId)
  {
    && (c in s.conns ==> c in s'.conns && s'.conns[c].wire == s.conns[c].wire && (ClosedIn(s, c) ==> ClosedIn(s', c)))
    && (c in s'.conns && c !in s.conns ==> s'.conns[c].wire == [])
    && (!ClosedIn(s', c) ==> Recorded(s'.bws, c) == Recorded(s.bws, c))
    && (c in s'.bws.states ==> c in s.bws.states || c in s'.conns)
  }

  /** No byte goes out and none is recorded. */
  ghost predicate Calm(s: State, s': State)
  {
    && NoMore(s.bws, TimeOf(s), s'.bws, TimeOf(s'))
    && s.now <= s'.now
    && forall c :: CalmAt(s, s', c)
  }

  lemma CalmTransitive(a: State, b: State, c: State)
    requires Calm(a, b) && Calm(b, c)
    ensures Calm(a, c)
  {
    forall d
      ensures CalmAt(a, c, d)
    {
      assert CalmAt(a, b, d) && CalmAt(b, c, d);
    }
  }

  lemma NoMoreItself(b: Bw, t: Timeb)
    requires AccountsOk(b, t)
    ensures NoMore(b, t, b, t)
  {
  }

  /** Connection `c` changed, and the accounts in a way that adds nothing. */
  lemma CalmOne(s: State, s': State, c: ConnId)
    requires c in s'.conns && s'.conns == s.conns[c := s'.conns[c]] && s'.now == s.now
    requires c in s.conns ==> s'.conns[c].wire == s.conns[c].wire && (ClosedIn(s, c) ==> ClosedIn(s', c))
    requires c !in s.conns ==> s'.conns[c].wire == []
    requires NoMore(s.bws, TimeOf(s), s'.bws, TimeOf(s'))
    requires forall d :: d != c || !ClosedIn(s', c) ==> Recorded(s'.bws, d) == Recorded(s.bws, d)
    requires forall d :: d in s'.bws.states ==> d in s.bws.states || d == c
    ensures Calm(s, s')
  {
  }

  /** Only connection `c` changed. */
  lemma CalmConn(s: State, s': State, c: ConnId)
    requires BankOk(s)
    requires c in s'.conns && s'.conns == s.conns[c := s'.conns[c]] && s'.now == s.now && s'.bws == s.bws
    requires c in s.conns ==> s'.conns[c].wire == s.conns[c].wire && (ClosedIn(s, c) ==> ClosedIn(s', c))
    requires c !in s.conns ==> s'.conns[c].wire == []
    ensures Calm(s, s')
  {
    NoMoreItself(s.bws, TimeOf(s));
    CalmOne(s, s', c);
  }

  /** No connection changed. */
  lemma CalmRest(s: State, s': State)
    requires BankOk(s) && s'.conns == s.conns && s.now <= s'.now
    requires s'.bws == s.bws.(maxBw := s'.bws.maxBw)
    ensures Calm(s, s')
  {
    MsOfMs(s.now);
    MsOfMs(s'.now);
    OnlyTheLimit(s.bws, s'.bws, TimeOf(s), TimeOf(s'));
    CalmWires(s, s');
  }

  lemma CalmWires(s: State, s': State)
    requires s'.conns == s.conns && s'.bws.states == s.bws.states
    ensures forall c :: CalmAt(s, s', c)
  {
  }

  // ---------- the dispatcher thread ----------

  lemma ErasedByClosing(s: State, c: ConnId)
    requires c in s.conns && s.conns[c].cbs.state != CsClosed
    ensures var s' := CloseConnection(s, c);
            s'.bws == Erased(s.bws, c) && s'.now == s.now && c in s'.conns && s'.conns[c].wire == s.conns[c].wire
  {
  }

  lemma CloseCalm(s: State, c: ConnId)
    requires BankOk(s) && c in s.conns
    ensures Calm(s, CloseConnection(s, c))
  {
    if s.conns[c].cbs.state == CsClosed {
      CalmRest(s, s);
    } else {
      ErasedByClosing(s, c);
      ClosedShape(s, c);
      ErasedNoMore(s.bws, c, TimeOf(s));
      CalmOne(s, CloseConnection(s, c), c);
    }
  }

  lemma CloseMessageCalm(s: State, c: ConnId, m: Msg)
    requires BankOk(s) && c in s.conns && Closes(m, c)
    ensures Calm(s, Handle(s, m))
  {
    var s1 := CloseConnection(s, c);
    CloseCalm(s, c);
    ClosedShape(s, c);
    AfterClosing(s1, c, m, Handle(s, m));
    CalmConn(s1, Handle(s, m), c);
    CalmTransitive(s, s1, Handle(s, m));
  }

  lemma PopMessageCalm(s: State)
    requires BankOk(s) && |s.queue| > 0 && Known(s, s.queue[0])
    requires s.queue[0].SendRequest? || s.queue[0].BreakSend? ==> ReqKnown(s, s.queue[0].r)
    ensures Calm(s, PopMessage(s))
  {
    var s0, s' := s.(queue := s.queue[1..]), PopMessage(s);
    match s.queue[0]
    case StopAccepting => CalmRest(s, s');
    case Create(c) => CalmConn(s, s', c);
    case Close(c) => PopCloseCalm(s, c);
    case CloseWait(c) => PopCloseCalm(s, c);
    case SendRequest(r) => CalmConn(s, s', s.reqs[r].conn);
    case BreakSend(r) =>
      UnrefShape2(s0, s', r, s.reqs[r].Reported(false).(broken := true));
      CalmConn(s, s', s.reqs[r].conn);
  }

  lemma PopCloseCalm(s: State, c: ConnId)
    requires BankOk(s) && |s.queue| > 0 && c in s.conns && (s.queue[0] == Close(c) || s.queue[0] == CloseWait(c))
    ensures Calm(s, PopMessage(s))
  {
    var s0 := s.(queue := s.queue[1..]);
    CalmRest(s, s0);
    CloseMessageCalm(s0, c, s.queue[0]);
    CalmTransitive(s, s0, PopMessage(s));
  }

  lemma EstablishedCalm(s: State, c: ConnId)
    requires BankOk(s) && c in s.conns && !ClosedIn(s, c)
    ensures Calm(s, ConnectionEstablished(s, c))
  {
    if s.conns[c].cbs.connected {
      EmptyInsertNoMore(s.bws, c, TimeOf(s));
      EmptyInsertRecords(s.bws, c, TimeOf(s));
      CalmOne(s, ConnectionEstablished(s, c), c);
    } else {
      CalmRest(s, s);
    }
  }

  lemma AcceptedShape(s: State, n: Newcomer)
    requires s.accepted && n.c !in s.conns
    ensures var s' := AcceptConnection(s, n);
            && n.c in s'.conns && s'.conns == s.conns[n.c := s'.conns[n.c]] && s'.conns[n.c].wire == []
            && s'.bws == Inserted(s.bws, n.c, 0, TimeOf(s)) && s'.now == s.now
    ensures forall d :: d in Inserted(s.bws, n.c, 0, TimeOf(s)).states ==> d in s.bws.states || d == n.c
  {
  }

  lemma AcceptCalm(s: State, n: Newcomer)
    requires BankOk(s) && n.c !in s.conns
    ensures Calm(s, AcceptConnection(s, n))
  {
    if s.accepted {
      AcceptedShape(s, n);
      EmptyInsertNoMore(s.bws, n.c, TimeOf(s));
      EmptyInsertRecords(s.bws, n.c, TimeOf(s));
      CalmOne(s, AcceptConnection(s, n), n.c);
    } else {
      CalmRest(s, s);
    }
  }

  lemma {:induction false} AcceptAllCalm(s: State, news: seq<Newcomer>)
    requires Inv(s) && BankOk(s) && FreshNewcomers(s, news)
    ensures Calm(s, AcceptAll(s, news))
    decreases |news|
  {
    if |news| == 0 {
      CalmRest(s, s);
    } else {
      var init, last := news[..|news| - 1], news[|news| - 1];
      var s1 := AcceptAll(s, init);
      AcceptAllCalm(s, init);
      AcceptAllInv(s, init);
      assert last.c !in s1.conns;
      AcceptCalm(s1, last);
      CalmTransitive(s, s1, AcceptConnection(s1, last));
    }
  }

  lemma SwitchedCalm(s: State, c: ConnId, active: bool)
    requires BankOk(s)
    ensures Calm(s, s.(bws := Switched(s.bws, c, active)))
  {
    SwitchedNoMore(s.bws, c, active, TimeOf(s));
  }

  lemma RecvEventCalm(s: State, c: ConnId, res: RecvResult)
    requires BankOk(s) && c in s.conns
    ensures Calm(s, RecvEvent(s, c, res))
  {
    var (cbs, open) := DoRecv(s.conns[c].cbs, res);
    var s' := WithConn(s, c, s.conns[c].(cbs := cbs));
    CalmConn(s, s', c);
    if !open {
      CloseCalm(s', c);
      CalmTransitive(s, s', CloseConnection(s', c));
    }
  }

  lemma DeliveredCalm(s: State, c: ConnId, write: bool)
    requires BankOk(s) && c in s.conns
    ensures Calm(s, Delivered(s, c, write))
  {
    if write {
      CalmConn(s, Delivered(s, c, write), c);
    } else {
      CalmRest(s, s);
    }
  }

  /** While there is a limit, writability alone sends nothing. */
  lemma WriteEventCalm(s: State, c: ConnId, w: World)
    requires BankOk(s) && c in s.conns && !ClosedIn(s, c) && s.bws.maxBw > 0
    ensures Calm(s, WriteEvent(s, c, w))
  {
    EstablishedCalm(s, c);
    SwitchedCalm(s, c, true);
  }

  lemma EventCalm(s: State, e: NetEvent)
    requires BankOk(s) && e.c in s.conns && !ClosedIn(s, e.c) && s.bws.maxBw > 0
    ensures Calm(s, Event(s, e))
  {
    var s0 := Delivered(s, e.c, e.write);
    DeliveredCalm(s, e.c, e.write);
    if e.close {
      CloseCalm(s0, e.c);
      CalmTransitive(s, s0, Event(s, e));
    } else {
      var s1 := if e.write then WriteEvent(s0, e.c, e.w) else s0;
      WriteEventCalm(s0, e.c, e.w);
      if e.write {
        CalmTransitive(s, s0, s1);
      }
      if e.read {
        RecvEventCalm(s1, e.c, e.res);
        CalmTransitive(s, s1, Event(s, e));
      }
    }
  }

  // ---------- clients, the clock and the kernel ----------

  lemma HolderCalm(s: State, a: Action)
    requires BankOk(s) && Enabled(s, a)
    requires a.ClientCloses? || a.ClientClosesAndWaits? || a.ClientResumes? || a.ClientAddrefs?
          || a.ClientReleases? || a.ClientSends? || a.SocketBreaks? || a.RoomGrows?
    ensures Calm(s, Next(s, a))
  {
    CalmConn(s, Next(s, a), a.c);
  }

  lemma MakerCalm(s: State, a: Action)
    requires BankOk(s) && Enabled(s, a)
    requires a.ClientMakes? || a.ClientConnects? || a.ClientDials?
    requires a.ClientDials? ==> s.conns[a.c].cbs.state == CsWait4Connect
    ensures Calm(s, Next(s, a))
  {
    CalmConn(s, Next(s, a), a.c);
  }

  lemma BystanderCalm(s: State, a: Action)
    requires BankOk(s) && Enabled(s, a)
    requires a.ClientReleasesReq? || a.ClientBreaks? || a.ClientCounts? || a.ClientStopsAccepting? || a.ClientSetsLimit?
          || a.TimePasses?
    ensures Calm(s, Next(s, a))
  {
    if a.ClientReleasesReq? {
      UnrefShape2(s, Next(s, a), a.r, s.reqs[a.r].(clientRef := false));
      CalmConn(s, Next(s, a), s.reqs[a.r].conn);
    } else {
      CalmRest(s, Next(s, a));
    }
  }

  lemma ClientCalm(s: State, a: Action)
    requires Inv(s) && BankOk(s) && Enabled(s, a)
    requires !a.HandlesMessage? && !a.HandlesEvent? && !a.HandlesListener? && !a.Idles?
    ensures Calm(s, Next(s, a))
  {
    if a.ClientMakes? || a.ClientConnects? || a.ClientDials? {
      if a.ClientDials? {
        assert ConnOk(s, a.c);
      }
      MakerCalm(s, a);
    } else if a.ClientReleasesReq? || a.ClientBreaks? || a.ClientCounts? || a.ClientStopsAccepting? || a.ClientSetsLimit?
           || a.TimePasses? {
      BystanderCalm(s, a);
    } else {
      HolderCalm(s, a);
    }
  }

  lemma MessageCalm(s: State)
    requires Inv(s) && BankOk(s) && Enabled(s, HandlesMessage)
    ensures Calm(s, Next(s, HandlesMessage))
  {
    NextMessageKnown(s);
    PopMessageCalm(s);
  }
}

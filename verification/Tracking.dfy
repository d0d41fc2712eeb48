/** Whom the limiter tracks: in every run only connections that have been established and not closed. */
module TrackingProofs {
  import opened Bandwidth
  import opened BillingProofs
  import opened CallbackProtocol
  import opened Clock
  import opened DeliveryProofs
  import opened DispatcherInvariant
  import opened DispatcherState
  import opened DispatcherSteps
  import opened EventStepProofs
  import opened FloatModel
  import opened Ids
  import opened SendStepProofs
  import opened ThreadStepProofs

  predicate ConnectedIn(s: State, c: ConnId)
  {
    c in s.conns && s.conns[c].cbs.state == CsConnected
  }

  predicate ClosedIn(s: State, c: ConnId)
  {
    c in s.conns && s.conns[c].cbs.state == CsClosed
  }

  /** The limiter tracks only established connections. */
  ghost predicate TrackedConnected(s: State)
  {
    forall c :: c in s.bws.states ==> ConnectedIn(s, c)
  }

  /** Tracking begins only with the acceptance of a connection or the end of its connect. */
  ghost predicate TrackStep(s: State, s': State)
  {
    && TrackedConnected(s')
    && forall c :: c in s'.bws.states ==> c in s.bws.states || c !in s.conns || s.conns[c].cbs.connected
  }

  predicate SameTracked(s: State, s': State)
  {
    s'.bws.states.Keys == s.bws.states.Keys
  }

  /** Nobody new is tracked, and nobody tracked leaves its state. */
  lemma NobodyNew(s: State, s': State)
    requires TrackedConnected(s) && s'.bws.states.Keys <= s.bws.states.Keys
    requires forall c :: c in s'.bws.states && ConnectedIn(s, c) ==> ConnectedIn(s', c)
    ensures TrackStep(s, s')
  {
    forall c | c in s'.bws.states
      ensures c in s.bws.states && ConnectedIn(s', c)
    {
      assert c in s'.bws.states.Keys && c in s.bws.states.Keys;
    }
  }

  lemma SameCallbacks(s: State, s': State)
    requires TrackedConnected(s) && s'.bws.states.Keys <= s.bws.states.Keys
    requires forall c :: c in s.conns ==> c in s'.conns && s'.conns[c].cbs == s.conns[c].cbs
    ensures TrackStep(s, s')
  {
    NobodyNew(s, s');
  }

  /** One connection changed. */
  lemma OneConn(s: State, s': State, c: ConnId)
    requires TrackedConnected(s) && c in s'.conns && s'.conns == s.conns[c := s'.conns[c]]
    requires forall d :: d != c && d in s'.bws.states ==> d in s.bws.states
    requires c in s'.bws.states ==> ConnectedIn(s', c) && (c in s.bws.states || c !in s.conns || s.conns[c].cbs.connected)
    ensures TrackStep(s, s')
  {
  }

  // ---------- walks ----------

  /** A connection that is not tracked has no guess; without a limit nothing is recorded. */
  predicate NoNewAccount(s: State, c: ConnId, guess: Option<uint32>)
  {
    s.bws.maxBw == 0 || c in s.bws.states || guess == Some(0)
  }

  lemma BilledTracks(b: Bw, c: ConnId, n: uint32, t: Timeb, off: bool)
    requires b.maxBw == 0 || c in b.states || n == 0
    ensures Billed(b, c, n, t, off).states.Keys == b.states.Keys && Billed(b, c, n, t, off).maxBw == b.maxBw
  {
  }

  lemma SendTracks(s: State, r: ReqId, guess: Option<uint32>, w: World)
    requires ReqKnown(s, r) && s.reqs[r].phase == Pending && NoNewAccount(s, s.reqs[r].conn, guess)
    ensures var out := DoSend(s, r, guess, w);
            SameTracked(s, out.s) && NoNewAccount(out.s, s.reqs[r].conn, out.guess)
  {
    var s' := DoSend(s, r, guess, w).s;
    DoSendBill(s, r, guess, w);
    DoSendDelivery(s, r, guess, w);
    BilledTracks(s.bws, s.reqs[r].conn, Takes(s, r, guess, w), OfMs(s'.now), FallsShort(s, r, guess, w));
    assert s.reqs[r].conn in s'.bws.states.Keys <==> s.reqs[r].conn in s.bws.states.Keys;
  }

  lemma AttemptTracks(s: State, c: ConnId, i: nat, guess: Option<uint32>, w: World)
    requires Inv(s) && Listed(s, c, i) && NoNewAccount(s, c, guess)
    ensures var out := Attempt(s, c, i, guess, w);
            SameTracked(s, out.s) && NoNewAccount(out.s, c, out.guess)
  {
    ListedPending(s, c, i);
    AttemptState(s, c, i, guess, w);
    SendTracks(s, s.outgoings[c][i], guess, w);
  }

  lemma {:induction false} SendListTracks(s: State, c: ConnId, i: nat, guess: Option<uint32>, w: World)
    requires Inv(s) && NoNewAccount(s, c, guess)
    ensures SameTracked(s, SendList(s, c, i, guess, w))
    decreases if c in s.outgoings then |s.outgoings[c]| - i else 0
  {
    if Listed(s, c, i) {
      var out := Attempt(s, c, i, guess, w);
      AttemptInv(s, c, i, guess, w);
      AttemptTracks(s, c, i, guess, w);
      if !out.done {
        SendListTracks(out.s, c, i + 1, out.guess, w);
      }
    }
  }

  lemma {:induction false} SendListKeepsLimit(s: State, c: ConnId, i: nat, guess: Option<uint32>, w: World)
    ensures SendList(s, c, i, guess, w).bws.maxBw == s.bws.maxBw
    decreases if c in s.outgoings then |s.outgoings[c]| - i else 0
  {
    if Listed(s, c, i) {
      var out := Attempt(s, c, i, guess, w);
      DoSendBill(s, s.outgoings[c][i], guess, w);
      if !out.done {
        SendListKeepsLimit(out.s, c, i + 1, out.guess, w);
      }
    }
  }

  lemma FreeSendKeepsAccounts(s: State, r: ReqId, guess: Option<uint32>, w: World)
    requires ReqKnown(s, r) && s.bws.maxBw == 0
    ensures DoSend(s, r, guess, w).s.bws == s.bws && s.now <= DoSend(s, r, guess, w).s.now
  {
    DoSendBill(s, r, guess, w);
  }

  lemma {:induction false} FreeListKeepsAccounts(s: State, c: ConnId, i: nat, guess: Option<uint32>, w: World)
    requires s.bws.maxBw == 0
    ensures SendList(s, c, i, guess, w).bws == s.bws && s.now <= SendList(s, c, i, guess, w).now
    decreases if c in s.outgoings then |s.outgoings[c]| - i else 0
  {
    if Listed(s, c, i) {
      var out := Attempt(s, c, i, guess, w);
      FreeSendKeepsAccounts(s, s.outgoings[c][i], guess, w);
      if !out.done {
        FreeListKeepsAccounts(out.s, c, i + 1, out.guess, w);
      }
    }
  }

  lemma {:induction false} SendAllTracks(s: State, order: seq<ConnId>, limited: bool, w: World)
    requires Inv(s) && (limited || s.bws.maxBw == 0)
    ensures SameTracked(s, SendAll(s, order, limited, w))
    decreases |order|
  {
    if |order| > 0 {
      var guess := GuessFor(s, order[0], limited);
      SendListInv(s, order[0], 0, guess, w);
      SendListTracks(s, order[0], 0, guess, w);
      SendListKeepsLimit(s, order[0], 0, guess, w);
      SendAllTracks(SendList(s, order[0], 0, guess, w), order[1..], limited, w);
    }
  }

  lemma {:induction false} SendAllKeepsLimit(s: State, order: seq<ConnId>, limited: bool, w: World)
    ensures SendAll(s, order, limited, w).bws.maxBw == s.bws.maxBw
    decreases |order|
  {
    if |order| > 0 {
      var guess := GuessFor(s, order[0], limited);
      SendListKeepsLimit(s, order[0], 0, guess, w);
      SendAllKeepsLimit(SendList(s, order[0], 0, guess, w), order[1..], limited, w);
    }
  }

  lemma LivesStayConnected(s: State, s': State)
    requires TrackedConnected(s) && SameTracked(s, s') && Lives(s') == Lives(s)
    ensures TrackStep(s, s')
  {
    forall c | c in s'.bws.states && ConnectedIn(s, c)
      ensures ConnectedIn(s', c)
    {
      LifeOf(s, s', c);
    }
    NobodyNew(s, s');
  }

  lemma RecalculatedTracks(b: Bw, now: Timeb, fpu: Fpu)
    ensures Recalculated(b, now, fpu).states.Keys == b.states.Keys
  {
  }

  lemma LimitedTurnTracks(s: State, tour: Tour, fpu: Fpu)
    requires Inv(s)
    ensures SameTracked(s, LimitedTurn(s, tour, fpu)) && Lives(LimitedTurn(s, tour, fpu)) == Lives(s)
  {
    if s.bws.maxBw == 0 {
      SendAllTracks(s, tour.order, true, tour.second);
      SendAllKeepsLives(s, tour.order, true, tour.second);
    } else {
      var s' := s.(bws := Recalculated(s.bws, OfMs(s.now), fpu));
      RecalculatedTracks(s.bws, OfMs(s.now), fpu);
      RecalculatedInv(s, fpu);
      SendAllTracks(s', tour.order, true, tour.second);
      SendAllKeepsLives(s', tour.order, true, tour.second);
      assert Lives(s') == Lives(s);
    }
  }

  lemma IdleTracks(s: State, tour: Tour, fpu: Fpu)
    requires Inv(s)
    ensures SameTracked(s, Idle(s, tour, fpu)) && Lives(Idle(s, tour, fpu)) == Lives(s)
  {
    if s.bws.maxBw == 0 {
      SendAllInv(s, tour.order, false, tour.first);
      SendAllTracks(s, tour.order, false, tour.first);
      SendAllKeepsLives(s, tour.order, false, tour.first);
      LimitedTurnTracks(SendAll(s, tour.order, false, tour.first), tour, fpu);
    } else {
      LimitedTurnTracks(s, tour, fpu);
    }
  }

  // ---------- messages ----------

  lemma ClosingTracks(s: State, c: ConnId)
    requires TrackedConnected(s) && c in s.conns
    ensures TrackStep(s, CloseConnection(s, c))
  {
    ClosedShape(s, c);
    if s.conns[c].cbs.state == CsClosed {
      assert c in s.bws.states ==> ConnectedIn(s, c);
    }
    ClosingErases(s, c);
    OneConn(s, CloseConnection(s, c), c);
  }

  lemma ClosingErases(s: State, c: ConnId)
    requires c in s.conns
    ensures CloseConnection(s, c).bws == if s.conns[c].cbs.state == CsClosed then s.bws else Erased(s.bws, c)
  {
  }

  lemma CloseMessageTracks(s: State, c: ConnId, m: Msg)
    requires TrackedConnected(s) && c in s.conns && Closes(m, c)
    ensures TrackStep(s, Handle(s, m))
  {
    ClosedShape(s, c);
    ClosingErases(s, c);
    AfterClosing(CloseConnection(s, c), c, m, Handle(s, m));
    assert c in s.bws.states ==> ConnectedIn(s, c);
    OneConn(s, Handle(s, m), c);
  }

  lemma RequestMessageTracks(s: State, m: Msg)
    requires TrackedConnected(s) && (m.SendRequest? || m.BreakSend?) && ReqKnown(s, m.r)
    ensures TrackStep(s, Handle(s, m))
  {
    if m.BreakSend? {
      UnrefShape2(s, Handle(s, m), m.r, s.reqs[m.r].Reported(false).(broken := true));
    } else {
      EnlistedShape(s, m.r);
    }
    SameCallbacks(s, Handle(s, m));
  }

  lemma HandleTracks(s: State, m: Msg)
    requires TrackedConnected(s) && Known(s, m) && (m.SendRequest? || m.BreakSend? ==> ReqKnown(s, m.r))
    ensures TrackStep(s, Handle(s, m))
  {
    match m
    case StopAccepting => SameCallbacks(s, Handle(s, m));
    case Create(c) => SameCallbacks(s, Handle(s, m));
    case Close(c) => CloseMessageTracks(s, c, m);
    case CloseWait(c) => CloseMessageTracks(s, c, m);
    case SendRequest(r) => RequestMessageTracks(s, m);
    case BreakSend(r) => RequestMessageTracks(s, m);
  }

  lemma PopMessageTracks(s: State)
    requires TrackedConnected(s) && |s.queue| > 0 && Known(s, s.queue[0])
    requires s.queue[0].SendRequest? || s.queue[0].BreakSend? ==> ReqKnown(s, s.queue[0].r)
    ensures TrackStep(s, PopMessage(s))
  {
    HandleTracks(s.(queue := s.queue[1..]), s.queue[0]);
  }

  // ---------- accepting and events ----------

  lemma AcceptTracks(s: State, n: Newcomer)
    requires TrackedConnected(s) && n.c !in s.conns
    ensures TrackStep(s, AcceptConnection(s, n))
    ensures forall c :: c in s.conns ==> c in AcceptConnection(s, n).conns && AcceptConnection(s, n).conns[c] == s.conns[c]
  {
  }

  lemma TrackStepTransitive(a: State, b: State, c: State)
    requires TrackStep(a, b) && TrackStep(b, c)
    requires forall d :: d in a.conns ==> d in b.conns && (b.conns[d].cbs.connected ==> a.conns[d].cbs.connected)
    ensures TrackStep(a, c)
  {
  }

  lemma {:induction false} AcceptAllTracks(s: State, news: seq<Newcomer>)
    requires Inv(s) && TrackedConnected(s) && FreshNewcomers(s, news)
    ensures TrackStep(s, AcceptAll(s, news))
    ensures forall c :: c in s.conns ==> c in AcceptAll(s, news).conns && AcceptAll(s, news).conns[c] == s.conns[c]
    decreases |news|
  {
    if |news| > 0 {
      var init, last := news[..|news| - 1], news[|news| - 1];
      AcceptAllTracks(s, init);
      AcceptAllInv(s, init);
      var s1 := AcceptAll(s, init);
      assert last.c !in s1.conns;
      AcceptTracks(s1, last);
      TrackStepTransitive(s, s1, AcceptConnection(s1, last));
    }
  }

  /** Tracking steps that tell nobody to wait for its connect again. */
  ghost predicate TrackOn(s: State, s': State)
  {
    && TrackStep(s, s') && SameKeys(s, s')
    && forall d :: d in s.conns && s'.conns[d].cbs.connected ==> s.conns[d].cbs.connected
  }

  lemma EstablishedTracks(s: State, c: ConnId)
    requires TrackedConnected(s) && c in s.conns && s.conns[c].cbs.connected
    ensures TrackOn(s, ConnectionEstablished(s, c))
  {
    OneConn(s, ConnectionEstablished(s, c), c);
  }

  lemma SwitchedTracks(s: State, c: ConnId)
    requires TrackedConnected(s)
    ensures TrackOn(s, s.(bws := Switched(s.bws, c, true)))
  {
    SameCallbacks(s, s.(bws := Switched(s.bws, c, true)));
  }

  lemma SwitchedOnTracks(s: State, c: ConnId, w: World)
    requires Inv(s) && TrackedConnected(s) && s.bws.maxBw == 0
    ensures TrackOn(s, SendList(s.(bws := Switched(s.bws, c, true)), c, 0, None, w))
  {
    assert Switched(s.bws, c, true) == s.bws && s.(bws := s.bws) == s;
    FreeWriteTracks(s, c, w);
  }

  lemma WriteEventTracks(s: State, c: ConnId, w: World)
    requires Inv(s) && TrackedConnected(s) && c in s.conns
    ensures TrackOn(s, WriteEvent(s, c, w))
  {
    WriteEventCases(s, c, w);
    if s.conns[c].cbs.connected {
      EstablishedTracks(s, c);
    } else if s.bws.maxBw == 0 {
      SwitchedOnTracks(s, c, w);
    } else {
      SwitchedTracks(s, c);
    }
  }

  lemma FreeWriteTracks(s: State, c: ConnId, w: World)
    requires Inv(s) && TrackedConnected(s) && s.bws.maxBw == 0
    ensures TrackStep(s, SendList(s, c, 0, None, w))
    ensures forall d :: d in s.conns ==> SendList(s, c, 0, None, w).conns[d].cbs == s.conns[d].cbs
  {
    SendListTracks(s, c, 0, None, w);
    SendListKeepsLives(s, c, 0, None, w);
    LivesStayConnected(s, SendList(s, c, 0, None, w));
    forall d | d in s.conns
      ensures SendList(s, c, 0, None, w).conns[d].cbs == s.conns[d].cbs
    {
      LifeOf(s, SendList(s, c, 0, None, w), d);
    }
  }

  lemma RecvEventTracks(s: State, c: ConnId, res: RecvResult)
    requires TrackedConnected(s) && c in s.conns
    ensures TrackStep(s, RecvEvent(s, c, res))
  {
    var (cbs, open) := DoRecv(s.conns[c].cbs, res);
    var s' := WithConn(s, c, s.conns[c].(cbs := cbs));
    NobodyNew(s, s');
    if !open {
      ClosingTracks(s', c);
      TrackStepTransitive(s, s', CloseConnection(s', c));
    }
  }

  lemma ReactionTracks(s: State, e: NetEvent)
    requires Inv(s) && TrackedConnected(s) && e.c in s.conns
    ensures var s1 := if e.write then WriteEvent(s, e.c, e.w) else s;
            TrackStep(s, if e.read then RecvEvent(s1, e.c, e.res) else s1)
  {
    SameCallbacks(s, s);
    var s1 := if e.write then WriteEvent(s, e.c, e.w) else s;
    if e.write {
      WriteEventTracks(s, e.c, e.w);
    }
    if e.read {
      RecvEventTracks(s1, e.c, e.res);
      TrackStepTransitive(s, s1, RecvEvent(s1, e.c, e.res));
    }
  }

  lemma EventTracks(s: State, e: NetEvent)
    requires Inv(s) && TrackedConnected(s) && e.c in s.conns
    ensures TrackStep(s, Event(s, e))
  {
    var s0 := Delivered(s, e.c, e.write);
    DeliveredInv(s, e.c, e.write);
    SameCallbacks(s, s0);
    if e.close {
      ClosingTracks(s0, e.c);
    } else {
      ReactionTracks(s0, e);
    }
    TrackStepTransitive(s, s0, Event(s, e));
  }

  // ---------- every step and every run ----------

  lemma ClientTracks(s: State, a: Action)
    requires TrackedConnected(s) && Enabled(s, a)
    requires !a.HandlesMessage? && !a.HandlesEvent? && !a.HandlesListener? && !a.Idles? && !a.ClientDials?
    ensures TrackStep(s, Next(s, a))
  {
    if a.ClientReleasesReq? {
      UnrefShape2(s, Next(s, a), a.r, s.reqs[a.r].(clientRef := false));
    }
    SameCallbacks(s, Next(s, a));
  }

  lemma DialTracks(s: State, c: ConnId, read: bool, ok: bool)
    requires Inv(s) && TrackedConnected(s) && c in s.conns && !s.conns[c].dialled
    ensures TrackStep(s, Dial(s, c, read, ok))
  {
    assert ConnOk(s, c);
    assert c in s.bws.states ==> ConnectedIn(s, c);
    OneConn(s, Dial(s, c, read, ok), c);
  }

  lemma ThreadTracks(s: State, a: Action)
    requires Inv(s) && TrackedConnected(s) && Enabled(s, a)
    requires a.HandlesEvent? || a.HandlesListener? || a.Idles?
    ensures TrackStep(s, Next(s, a))
  {
    if a.HandlesEvent? {
      EventTracks(s, a.e);
    } else if a.HandlesListener? {
      AcceptAllTracks(s, a.news);
    } else {
      IdleTracks(s, a.tour, a.fpu);
      LivesStayConnected(s, Idle(s, a.tour, a.fpu));
    }
  }

  lemma MessageTracks(s: State)
    requires Inv(s) && TrackedConnected(s) && Enabled(s, HandlesMessage)
    ensures TrackStep(s, Next(s, HandlesMessage))
  {
    NextMessageKnown(s);
    PopMessageTracks(s);
  }

  lemma StepTracks(s: State, a: Action)
    requires Inv(s) && TrackedConnected(s) && Enabled(s, a)
    ensures TrackStep(s, Next(s, a))
  {
    if a.HandlesMessage? {
      MessageTracks(s);
    } else if a.HandlesEvent? || a.HandlesListener? || a.Idles? {
      ThreadTracks(s, a);
    } else if a.ClientDials? {
      DialTracks(s, a.c, a.read, a.ok);
    } else {
      ClientTracks(s, a);
    }
  }

  lemma {:induction false} RunTracks(s: State, run: seq<Action>)
    requires Inv(s) && TrackedConnected(s) && OrderlyRun(s, run)
    ensures ValidRun(s, run) && TrackedConnected(After(s, run))
    decreases |run|
  {
    if |run| > 0 {
      StepInv(s, run[0]);
      StepTracks(s, run[0]);
      RunTracks(Next(s, run[0]), run[1..]);
    }
  }

  lemma ReachedTracked(s: State, start: Start, run: seq<Action>)
    requires Reached(s, start, run)
    ensures TrackedConnected(s)
  {
    InitialInv(start.total, start.unset, start.now);
    RunTracks(Initial(start), run);
  }

  /** In every reachable state, whatever limits were set, the limiter tracks only established connections. */
  lemma OnlyEstablishedAreTracked(s: State, start: Start, run: seq<Action>, c: ConnId)
    requires Reached(s, start, run) && c in s.bws.states
    ensures ConnectedIn(s, c) && Talking(s.conns[c].cbs.trace)
  {
    ReachedTracked(s, start, run);
    ReachedInv(s, start, run);
    assert ConnectedIn(s, c) && ConnOk(s, c);
    AutomatonIsLanguage(s.conns[c].cbs.trace);
  }

  // ---------- walks without a limit record nothing ----------

  lemma {:induction false} FreeWalkKeepsAccounts(s: State, order: seq<ConnId>, limited: bool, w: World)
    requires s.bws.maxBw == 0
    ensures SendAll(s, order, limited, w).bws == s.bws && s.now <= SendAll(s, order, limited, w).now
    decreases |order|
  {
    if |order| > 0 {
      FreeListKeepsAccounts(s, order[0], 0, GuessFor(s, order[0], limited), w);
      FreeWalkKeepsAccounts(SendList(s, order[0], 0, GuessFor(s, order[0], limited), w), order[1..], limited, w);
    }
  }

  lemma FreeIdleKeepsAccounts(s: State, tour: Tour, fpu: Fpu)
    requires s.bws.maxBw == 0
    ensures Idle(s, tour, fpu).bws == s.bws && s.now <= Idle(s, tour, fpu).now
  {
    var s1 := SendAll(s, tour.order, false, tour.first);
    FreeWalkKeepsAccounts(s, tour.order, false, tour.first);
    FreeWalkKeepsAccounts(s1, tour.order, true, tour.second);
  }

  // ---------- without a limit nobody new is tracked ----------

  lemma {:induction false} FreeAcceptTracksNobody(s: State, news: seq<Newcomer>)
    requires s.bws.maxBw == 0
    ensures AcceptAll(s, news).bws == s.bws
  {
    if |news| > 0 {
      FreeAcceptTracksNobody(s, news[..|news| - 1]);
    }
  }

  lemma FreeWriteTracksNobody(s: State, c: ConnId, w: World)
    requires c in s.conns && s.bws.maxBw == 0
    ensures WriteEvent(s, c, w).bws == s.bws
  {
    WriteEventCases(s, c, w);
    FreeListKeepsAccounts(s.(bws := Switched(s.bws, c, true)), c, 0, None, w);
  }

  lemma ReadTracksNobody(s: State, c: ConnId, res: RecvResult)
    requires c in s.conns
    ensures RecvEvent(s, c, res).bws.states.Keys <= s.bws.states.Keys
  {
    var s' := WithConn(s, c, s.conns[c].(cbs := DoRecv(s.conns[c].cbs, res).0));
    ClosingErases(s', c);
  }

  lemma FreeEventTracksNobody(s: State, e: NetEvent)
    requires e.c in s.conns && s.bws.maxBw == 0
    ensures Event(s, e).bws.states.Keys <= s.bws.states.Keys
  {
    var s0 := Delivered(s, e.c, e.write);
    FreeWriteTracksNobody(s0, e.c, e.w);
    ClosingErases(s0, e.c);
    ReadTracksNobody(if e.write then WriteEvent(s0, e.c, e.w) else s0, e.c, e.res);
  }

  lemma PopTracksNobody(s: State)
    requires |s.queue| > 0 && Known(s, s.queue[0])
    requires s.queue[0].SendRequest? || s.queue[0].BreakSend? ==> ReqKnown(s, s.queue[0].r)
    ensures PopMessage(s).bws.states.Keys <= s.bws.states.Keys
  {
    var s0, m := s.(queue := s.queue[1..]), s.queue[0];
    if m.Close? || m.CloseWait? {
      ClosingErases(s0, m.c);
      AfterClosing(CloseConnection(s0, m.c), m.c, m, Handle(s0, m));
    } else if m.BreakSend? {
      UnrefShape2(s0, Handle(s0, m), m.r, s.reqs[m.r].Reported(false).(broken := true));
    }
  }

  lemma ClientTracksNobody(s: State, a: Action)
    requires Enabled(s, a)
    requires !a.HandlesMessage? && !a.HandlesEvent? && !a.HandlesListener? && !a.Idles?
    ensures Next(s, a).bws.states == s.bws.states
  {
    if a.ClientReleasesReq? {
      UnrefShape2(s, Next(s, a), a.r, s.reqs[a.r].(clientRef := false));
    }
  }

  lemma FreeThreadTracksNobody(s: State, a: Action)
    requires Enabled(s, a) && s.bws.maxBw == 0 && (a.HandlesEvent? || a.HandlesListener? || a.Idles?)
    ensures Next(s, a).bws.states.Keys <= s.bws.states.Keys
  {
    match a
    case HandlesEvent(e) => FreeEventTracksNobody(s, e);
    case HandlesListener(news) => FreeAcceptTracksNobody(s, news);
    case Idles(tour, fpu) => FreeIdleKeepsAccounts(s, tour, fpu);
  }

  lemma FreeStepTracksNobody(s: State, a: Action)
    requires Inv(s) && Enabled(s, a) && s.bws.maxBw == 0
    ensures Next(s, a).bws.states.Keys <= s.bws.states.Keys
  {
    if a.HandlesMessage? {
      NextMessageKnown(s);
      PopTracksNobody(s);
    } else if a.HandlesEvent? || a.HandlesListener? || a.Idles? {
      FreeThreadTracksNobody(s, a);
    } else {
      ClientTracksNobody(s, a);
    }
  }

  // ---------- the limit stays until a client changes it ----------

  lemma {:induction false} AcceptAllKeepsLimit(s: State, news: seq<Newcomer>)
    ensures AcceptAll(s, news).bws.maxBw == s.bws.maxBw
  {
    if |news| > 0 {
      AcceptAllKeepsLimit(s, news[..|news| - 1]);
    }
  }

  lemma WriteKeepsLimit(s: State, c: ConnId, w: World)
    requires c in s.conns
    ensures WriteEvent(s, c, w).bws.maxBw == s.bws.maxBw
  {
    WriteEventCases(s, c, w);
    SendListKeepsLimit(s.(bws := Switched(s.bws, c, true)), c, 0, None, w);
  }

  lemma EventKeepsLimit(s: State, e: NetEvent)
    requires e.c in s.conns
    ensures Event(s, e).bws.maxBw == s.bws.maxBw
  {
    var s0 := Delivered(s, e.c, e.write);
    WriteKeepsLimit(s0, e.c, e.w);
    ClosingKeepsLimit(s0, e.c);
    ReadKeepsLimit(if e.write then WriteEvent(s0, e.c, e.w) else s0, e.c, e.res);
  }

  lemma ClosingKeepsLimit(s: State, c: ConnId)
    requires c in s.conns
    ensures CloseConnection(s, c).bws.maxBw == s.bws.maxBw
  {
  }

  lemma ReadKeepsLimit(s: State, c: ConnId, res: RecvResult)
    requires c in s.conns
    ensures RecvEvent(s, c, res).bws.maxBw == s.bws.maxBw
  {
    var s' := WithConn(s, c, s.conns[c].(cbs := DoRecv(s.conns[c].cbs, res).0));
    ClosingKeepsLimit(s', c);
  }

  lemma PopKeepsLimit(s: State)
    requires |s.queue| > 0 && Known(s, s.queue[0])
    requires s.queue[0].SendRequest? || s.queue[0].BreakSend? ==> ReqKnown(s, s.queue[0].r)
    ensures PopMessage(s).bws.maxBw == s.bws.maxBw
  {
    var s0, m := s.(queue := s.queue[1..]), s.queue[0];
    if m.Close? || m.CloseWait? {
      ClosingErases(s0, m.c);
      AfterClosing(CloseConnection(s0, m.c), m.c, m, Handle(s0, m));
    } else if m.BreakSend? {
      UnrefShape2(s0, Handle(s0, m), m.r, s.reqs[m.r].Reported(false).(broken := true));
    }
  }

  lemma IdleKeepsLimit(s: State, tour: Tour, fpu: Fpu)
    ensures Idle(s, tour, fpu).bws.maxBw == s.bws.maxBw
  {
    var s1 := if s.bws.maxBw == 0 then SendAll(s, tour.order, false, tour.first) else s;
    SendAllKeepsLimit(s, tour.order, false, tour.first);
    SendAllKeepsLimit(s1, tour.order, true, tour.second);
    SendAllKeepsLimit(s1.(bws := Recalculated(s1.bws, OfMs(s1.now), fpu)), tour.order, true, tour.second);
  }

  lemma ThreadKeepsLimit(s: State, a: Action)
    requires Enabled(s, a) && (a.HandlesEvent? || a.HandlesListener? || a.Idles?)
    ensures Next(s, a).bws.maxBw == s.bws.maxBw
  {
    if a.HandlesEvent? {
      EventKeepsLimit(s, a.e);
    } else if a.HandlesListener? {
      AcceptAllKeepsLimit(s, a.news);
    } else {
      IdleKeepsLimit(s, a.tour, a.fpu);
    }
  }

  lemma ClientKeepsLimit(s: State, a: Action)
    requires Enabled(s, a)
    requires !a.HandlesMessage? && !a.HandlesEvent? && !a.HandlesListener? && !a.Idles?
    ensures Next(s, a).bws.maxBw == if a.ClientSetsLimit? then a.bytes else s.bws.maxBw
  {
  }

  lemma StepKeepsLimit(s: State, a: Action)
    requires Inv(s) && Enabled(s, a)
    ensures Next(s, a).bws.maxBw == if a.ClientSetsLimit? then a.bytes else s.bws.maxBw
  {
    if a.HandlesMessage? {
      NextMessageKnown(s);
      PopKeepsLimit(s);
    } else if a.HandlesEvent? || a.HandlesListener? || a.Idles? {
      ThreadKeepsLimit(s, a);
    } else {
      ClientKeepsLimit(s, a);
    }
  }

  /** The limit may change, but is never lifted. */
  predicate NeverLifted(run: seq<Action>)
  {
    forall i :: 0 <= i < |run| && run[i].ClientSetsLimit? ==> run[i].bytes > 0
  }
}

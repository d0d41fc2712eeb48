/**
 What happens to connections from step to step: calls are only added, states only move forward,
 and the socket counter follows.
 */
module ProgressProofs {
  import opened Bandwidth
  import opened CallbackProtocol
  import opened Clock
  import opened DispatcherInvariant
  import opened DispatcherState
  import opened DispatcherSteps
  import opened EventStepProofs
  import opened FloatModel
  import opened Ids
  import opened SendStepProofs
  import opened ThreadStepProofs
  import opened ClientStepProofs

  // ---------- the socket counter ----------

  /** Open connections whose socket is counted: those of the listener and of one-call connects. */
  function OpenCounted(conns: map<ConnId, Conn>): set<ConnId>
  {
    set c | c in conns && conns[c].origin != TwoCall && conns[c].cbs.state != CsClosed
  }

  /** Closed connections whose socket was never counted. */
  function ClosedUncounted(conns: map<ConnId, Conn>): set<ConnId>
  {
    set c | c in conns && conns[c].origin == TwoCall && conns[c].cbs.state == CsClosed
  }

  /** What `sockets_counter` ought to be, before it wraps. */
  function Balance(s: State): int
  {
    |OpenCounted(s.conns)| - s.uncounted - |ClosedUncounted(s.conns)|
  }

  ghost predicate CounterOk(s: State)
  {
    s.counter == Wrap(Balance(s))
  }

  predicate IsOpenCounted(conns: map<ConnId, Conn>, c: ConnId)
  {
    c in conns && conns[c].origin != TwoCall && conns[c].cbs.state != CsClosed
  }

  predicate IsClosedUncounted(conns: map<ConnId, Conn>, c: ConnId)
  {
    c in conns && conns[c].origin == TwoCall && conns[c].cbs.state == CsClosed
  }

  lemma SameElsewhere(m: map<ConnId, Conn>, m': map<ConnId, Conn>, c: ConnId)
    requires c in m' && m' == m[c := m'[c]]
    ensures OpenCounted(m) - {c} == OpenCounted(m') - {c}
    ensures ClosedUncounted(m) - {c} == ClosedUncounted(m') - {c}
  {
  }

  lemma OpenMoves(m: map<ConnId, Conn>, m': map<ConnId, Conn>, c: ConnId)
    requires c in m' && m' == m[c := m'[c]]
    ensures |OpenCounted(m')| - |OpenCounted(m)| == Count(IsOpenCounted(m', c)) - Count(IsOpenCounted(m, c))
  {
    SizeWithout(OpenCounted(m), c);
    SizeWithout(OpenCounted(m'), c);
    SameElsewhere(m, m', c);
    assert c in OpenCounted(m) <==> IsOpenCounted(m, c);
    assert c in OpenCounted(m') <==> IsOpenCounted(m', c);
  }

  lemma ClosedMoves(m: map<ConnId, Conn>, m': map<ConnId, Conn>, c: ConnId)
    requires c in m' && m' == m[c := m'[c]]
    ensures |ClosedUncounted(m')| - |ClosedUncounted(m)| == Count(IsClosedUncounted(m', c)) - Count(IsClosedUncounted(m, c))
  {
    SizeWithout(ClosedUncounted(m), c);
    SizeWithout(ClosedUncounted(m'), c);
    SameElsewhere(m, m', c);
    assert c in ClosedUncounted(m) <==> IsClosedUncounted(m, c);
    assert c in ClosedUncounted(m') <==> IsClosedUncounted(m', c);
  }

  lemma BalanceMoves(s: State, s': State, c: ConnId)
    requires c in s'.conns && s'.conns == s.conns[c := s'.conns[c]]
    ensures Balance(s') - Balance(s)
         == Count(IsOpenCounted(s'.conns, c)) - Count(IsOpenCounted(s.conns, c))
          - Count(IsClosedUncounted(s'.conns, c)) + Count(IsClosedUncounted(s.conns, c))
          - s'.uncounted + s.uncounted
  {
    OpenMoves(s.conns, s'.conns, c);
    ClosedMoves(s.conns, s'.conns, c);
  }

  // ---------- both at once ----------

  /** How a connection came about, and whether its `connect` succeeded at once, never changes. */
  predicate SameMaking(k: Conn, k': Conn)
  {
    k'.origin == k.origin && (k.dialled ==> k'.dialled && k'.issued == k.issued)
  }

  /** `s'` comes after `s`: no connection forgets anything, and the counter keeps its balance. */
  ghost predicate Follows(s: State, s': State)
  {
    && (forall c :: c in s.conns ==> c in s'.conns && Later(s.conns[c].cbs, s'.conns[c].cbs))
    && (forall c :: c in s.conns ==> c in s'.conns && SameMaking(s.conns[c], s'.conns[c]))
    && (CounterOk(s) ==> CounterOk(s'))
    && (!s.accepted ==> NobodyAccepted(s, s'))
  }

  /** Accepting stays stopped, and no connection has come from the listener. */
  ghost predicate NobodyAccepted(s: State, s': State)
  {
    !s'.accepted && forall c :: c in s'.conns && c !in s.conns ==> s'.conns[c].origin != FromListener
  }

  lemma FollowsTransitive(a: State, b: State, c: State)
    requires Follows(a, b) && Follows(b, c)
    ensures Follows(a, c)
  {
    forall d | d in a.conns
      ensures d in c.conns && Later(a.conns[d].cbs, c.conns[d].cbs)
    {
      LaterIsTransitive(a.conns[d].cbs, b.conns[d].cbs, c.conns[d].cbs);
    }
  }

  lemma WrapMoves(x: int, d: int)
    ensures Wrap(Wrap(x) + d) == Wrap(x + d)
  {
    WrapAdds(x, d);
  }

  /** One connection moves, and the counter by as much as the balance. */
  lemma OneConnFollows(s: State, s': State, c: ConnId, d: int)
    requires c in s'.conns && s'.conns == s.conns[c := s'.conns[c]]
    requires c in s.conns ==> Later(s.conns[c].cbs, s'.conns[c].cbs) && SameMaking(s.conns[c], s'.conns[c])
    requires !s.accepted ==> !s'.accepted && (c in s.conns || s'.conns[c].origin != FromListener)
    requires s'.counter == Wrap(s.counter + d) && Balance(s') == Balance(s) + d
    ensures Follows(s, s')
  {
    WrapMoves(Balance(s), d);
  }

  lemma QuietConnFollows(s: State, s': State, c: ConnId)
    requires c in s.conns && c in s'.conns && s'.conns == s.conns[c := s'.conns[c]]
    requires Later(s.conns[c].cbs, s'.conns[c].cbs)
    requires SameMaking(s.conns[c], s'.conns[c])
    requires s.conns[c].cbs.state == CsClosed <==> s'.conns[c].cbs.state == CsClosed
    requires s'.counter == s.counter && s'.uncounted == s.uncounted && (!s.accepted ==> !s'.accepted)
    ensures Follows(s, s')
  {
    BalanceMoves(s, s', c);
    WrapFits(s.counter);
    OneConnFollows(s, s', c, 0);
  }

  lemma SameConnsFollow(s: State, s': State)
    requires s'.conns == s.conns && s'.counter == s.counter && s'.uncounted == s.uncounted
    requires !s.accepted ==> !s'.accepted
    ensures Follows(s, s')
  {
  }

  // ---------- the dispatcher thread ----------

  lemma CloseFollows(s: State, c: ConnId)
    requires c in s.conns && Consistent(s.conns[c].cbs) && (s.conns[c].cbs.state == CsClosed || s.conns[c].recv)
    ensures Follows(s, CloseConnection(s, c))
  {
    var s' := CloseConnection(s, c);
    if s.conns[c].cbs.state == CsClosed {
      SameConnsFollow(s, s');
    } else {
      ShutIsConsistent(s.conns[c].cbs);
      BalanceMoves(s, s', c);
      OneConnFollows(s, s', c, -1);
    }
  }

  lemma UnrefFollows(s: State, c: ConnId)
    requires c in s.conns
    ensures Follows(s, Unref(s, c))
  {
    QuietConnFollows(s, Unref(s, c), c);
  }

  lemma LivesFollow(s: State, s': State)
    requires Lives(s') == Lives(s) && s'.counter == s.counter && s'.uncounted == s.uncounted && s'.accepted == s.accepted
    ensures Follows(s, s')
  {
    forall d | d in s.conns
      ensures d in s'.conns && Later(s.conns[d].cbs, s'.conns[d].cbs) && SameMaking(s.conns[d], s'.conns[d])
    {
      LifeOf(s, s', d);
    }
    forall d | d in s'.conns
      ensures d in s.conns
    {
      assert d in Lives(s');
    }
    assert OpenCounted(s'.conns) == OpenCounted(Lives(s')) && OpenCounted(s.conns) == OpenCounted(Lives(s));
    assert ClosedUncounted(s'.conns) == ClosedUncounted(Lives(s')) && ClosedUncounted(s.conns) == ClosedUncounted(Lives(s));
  }

  /** What sending leaves alone besides the connections. */
  predicate SameFrame(s: State, s': State)
  {
    && s'.counter == s.counter && s'.uncounted == s.uncounted && s'.accepted == s.accepted
    && s'.queue == s.queue && s'.outgoings.Keys == s.outgoings.Keys
  }

  lemma {:induction false} SendListKeepsFrame(s: State, c: ConnId, i: nat, guess: Option<uint32>, w: World)
    requires Inv(s)
    ensures SameFrame(s, SendList(s, c, i, guess, w))
    decreases if c in s.outgoings then |s.outgoings[c]| - i else 0
  {
    if Listed(s, c, i) {
      AttemptInv(s, c, i, guess, w);
      AttemptKeepsFrame(s, c, i, guess, w);
      var out := Attempt(s, c, i, guess, w);
      if !out.done {
        SendListKeepsFrame(out.s, c, i + 1, out.guess, w);
      }
    }
  }

  lemma AttemptKeepsFrame(s: State, c: ConnId, i: nat, guess: Option<uint32>, w: World)
    requires Inv(s) && Listed(s, c, i)
    ensures SameFrame(s, Attempt(s, c, i, guess, w).s)
  {
    ListedPending(s, c, i);
    DoSendOutcome(s, s.outgoings[c][i], guess, w);
    AttemptState(s, c, i, guess, w);
  }

  lemma SendListFollows(s: State, c: ConnId, i: nat, guess: Option<uint32>, w: World)
    requires Inv(s)
    ensures Follows(s, SendList(s, c, i, guess, w))
  {
    SendListKeepsLives(s, c, i, guess, w);
    SendListKeepsFrame(s, c, i, guess, w);
    LivesFollow(s, SendList(s, c, i, guess, w));
  }

  lemma {:induction false} SendAllFollows(s: State, order: seq<ConnId>, limited: bool, w: World)
    requires Inv(s)
    ensures Follows(s, SendAll(s, order, limited, w))
    decreases |order|
  {
    if |order| == 0 {
      SameConnsFollow(s, s);
    } else {
      var guess := GuessFor(s, order[0], limited);
      var s1 := SendList(s, order[0], 0, guess, w);
      SendListInv(s, order[0], 0, guess, w);
      SendListFollows(s, order[0], 0, guess, w);
      SendAllFollows(s1, order[1..], limited, w);
      FollowsTransitive(s, s1, SendAll(s1, order[1..], limited, w));
    }
  }

  lemma LimitedTurnFollows(s: State, tour: Tour, fpu: Fpu)
    requires Inv(s)
    ensures Follows(s, LimitedTurn(s, tour, fpu))
  {
    if s.bws.maxBw == 0 {
      SendAllFollows(s, tour.order, true, tour.second);
    } else {
      var s' := s.(bws := Recalculated(s.bws, OfMs(s.now), fpu));
      SameConnsFollow(s, s');
      if s'.bws.curBw <= s'.bws.maxBw {
        BystanderInv(s, s');
        SendAllFollows(s', tour.order, true, tour.second);
        FollowsTransitive(s, s', SendAll(s', tour.order, true, tour.second));
      }
    }
  }

  lemma IdleFollows(s: State, tour: Tour, fpu: Fpu)
    requires Inv(s)
    ensures Follows(s, Idle(s, tour, fpu))
  {
    if s.bws.maxBw == 0 {
      var s1 := SendAll(s, tour.order, false, tour.first);
      SendAllInv(s, tour.order, false, tour.first);
      SendAllFollows(s, tour.order, false, tour.first);
      LimitedTurnFollows(s1, tour, fpu);
      FollowsTransitive(s, s1, LimitedTurn(s1, tour, fpu));
    } else {
      LimitedTurnFollows(s, tour, fpu);
    }
  }

  lemma CloseMessageFollows(s: State, c: ConnId, m: Msg)
    requires c in s.conns && Consistent(s.conns[c].cbs) && Closes(m, c) && !s.crashed
    requires s.conns[c].cbs.state == CsClosed || s.conns[c].recv
    ensures Follows(s, Handle(s, m))
  {
    var s1 := CloseConnection(s, c);
    CloseFollows(s, c);
    UnrefFollows(s1, c);
    FollowsTransitive(s, s1, Unref(s1, c));
    if m == CloseWait(c) {
      QuietConnFollows(Unref(s1, c), Handle(s, m), c);
      FollowsTransitive(s, Unref(s1, c), Handle(s, m));
    }
  }

  lemma RequestMessageFollows(s: State, m: Msg)
    requires (m.SendRequest? || m.BreakSend?) && ReqKnown(s, m.r)
    ensures Follows(s, Handle(s, m))
  {
    if m.BreakSend? {
      UnrefReqFollows(s, Handle(s, m), m.r, s.reqs[m.r].Reported(false).(broken := true));
    } else {
      EnlistedShape(s, m.r);
      QuietConnFollows(s, Handle(s, m), s.reqs[m.r].conn);
    }
  }

  lemma PopMessageFollows(s: State)
    requires Inv(s) && |s.queue| > 0 && !ClosesUnissued(s)
    requires Known(s, s.queue[0])
    requires s.queue[0].SendRequest? || s.queue[0].BreakSend? ==> ReqKnown(s, s.queue[0].r)
    ensures Follows(s, PopMessage(s))
  {
    var s0, m := s.(queue := s.queue[1..]), s.queue[0];
    SameConnsFollow(s, s0);
    match m {
      case StopAccepting => SameConnsFollow(s0, PopMessage(s));
      case Create(c) => QuietConnFollows(s0, PopMessage(s), c);
      case Close(c) =>
        assert ConnOk(s, c);
        CloseMessageFollows(s0, c, m);
      case CloseWait(c) =>
        assert ConnOk(s, c);
        CloseMessageFollows(s0, c, m);
      case SendRequest(r) => RequestMessageFollows(s0, m);
      case BreakSend(r) => RequestMessageFollows(s0, m);
    }
    FollowsTransitive(s, s0, PopMessage(s));
  }

  lemma WriteEventFollows(s: State, c: ConnId, w: World)
    requires Inv(s) && c in s.conns
    ensures Follows(s, WriteEvent(s, c, w))
  {
    assert ConnOk(s, c);
    if s.conns[c].cbs.connected {
      EstablishedIsConsistent(s.conns[c].cbs);
      QuietConnFollows(s, ConnectionEstablished(s, c), c);
    } else {
      var s1 := s.(bws := Switched(s.bws, c, true));
      BystanderInv(s, s1);
      SameConnsFollow(s, s1);
      SendListFollows(s1, c, 0, None, w);
      FollowsTransitive(s, s1, SendList(s1, c, 0, None, w));
    }
  }

  lemma RecvEventFollows(s: State, c: ConnId, res: RecvResult)
    requires c in s.conns && Consistent(s.conns[c].cbs) && (s.conns[c].cbs.state == CsClosed || s.conns[c].recv)
    requires !(s.conns[c].cbs.read && s.conns[c].cbs.state == CsWait4Connect && (res == Got || res == GotAndThrew))
    ensures Follows(s, RecvEvent(s, c, res))
  {
    var (cbs, open) := DoRecv(s.conns[c].cbs, res);
    var s' := WithConn(s, c, s.conns[c].(cbs := cbs));
    ReceivedIsConsistent(s.conns[c].cbs);
    QuietConnFollows(s, s', c);
    if !open {
      CloseFollows(s', c);
      FollowsTransitive(s, s', CloseConnection(s', c));
    }
  }

  /** What an event asks for, once it has been delivered. */
  lemma ReactionFollows(s: State, e: NetEvent)
    requires Inv(s) && e.c in s.conns && s.conns[e.c].registered && s.conns[e.c].cbs.state != CsClosed
    requires !e.close && !EarlyData(s, e)
    ensures var s1 := if e.write then WriteEvent(s, e.c, e.w) else s;
            Follows(s, if e.read then RecvEvent(s1, e.c, e.res) else s1)
  {
    assert ConnOk(s, e.c);
    SameConnsFollow(s, s);
    if e.write {
      var s1 := WriteEvent(s, e.c, e.w);
      WriteEventInv(s, e.c, e.w);
      WriteEventFollows(s, e.c, e.w);
      if e.read {
        assert ConnOk(s1, e.c);
        RecvEventFollows(s1, e.c, e.res);
        FollowsTransitive(s, s1, RecvEvent(s1, e.c, e.res));
      }
    } else if e.read {
      RecvEventFollows(s, e.c, e.res);
    }
  }

  lemma DeliveredFollows(s: State, c: ConnId, write: bool)
    requires Inv(s) && c in s.conns
    ensures Follows(s, Delivered(s, c, write)) && Inv(Delivered(s, c, write))
  {
    DeliveredInv(s, c, write);
    assert ConnOk(s, c);
    QuietConnFollows(s, Delivered(s, c, write), c);
  }

  lemma EventFollows(s: State, e: NetEvent)
    requires Inv(s) && Enabled(s, HandlesEvent(e)) && !EarlyData(s, e)
    ensures Follows(s, Event(s, e))
  {
    var s0 := Delivered(s, e.c, e.write);
    DeliveredFollows(s, e.c, e.write);
    if e.close {
      assert ConnOk(s0, e.c);
      CloseFollows(s0, e.c);
    } else {
      ReactionFollows(s0, e);
    }
    FollowsTransitive(s, s0, Event(s, e));
  }

  lemma {:induction false} AcceptAllFollows(s: State, news: seq<Newcomer>)
    requires Inv(s) && FreshNewcomers(s, news)
    ensures Follows(s, AcceptAll(s, news))
    decreases |news|
  {
    if |news| == 0 {
      SameConnsFollow(s, s);
    } else {
      var init, last := news[..|news| - 1], news[|news| - 1];
      AcceptAllFollows(s, init);
      AcceptAllInv(s, init);
      var s1 := AcceptAll(s, init);
      assert last.c !in s1.conns;
      AcceptFollows(s1, last);
      FollowsTransitive(s, s1, AcceptConnection(s1, last));
    }
  }

  lemma AcceptFollows(s: State, n: Newcomer)
    requires n.c !in s.conns
    ensures Follows(s, AcceptConnection(s, n))
  {
    if s.accepted {
      BalanceMoves(s, AcceptConnection(s, n), n.c);
      OneConnFollows(s, AcceptConnection(s, n), n.c, 1);
    } else {
      SameConnsFollow(s, s);
    }
  }

  // ---------- every step ----------

  lemma NewConnFollows(s: State, s': State, c: ConnId)
    requires c !in s.conns && c in s'.conns && s'.conns == s.conns[c := s'.conns[c]]
    requires s'.conns[c].cbs.state == CsWait4Connect
    requires s'.counter == s.counter && s'.accepted == s.accepted && s'.conns[c].origin != FromListener
    requires s'.uncounted == s.uncounted + Count(s'.conns[c].origin != TwoCall)
    ensures Follows(s, s')
  {
    BalanceMoves(s, s', c);
    WrapFits(s.counter);
    OneConnFollows(s, s', c, 0);
  }

  lemma CountFollows(s: State)
    requires s.uncounted > 0
    ensures Follows(s, CountConnect(s))
  {
    WrapMoves(Balance(s), 1);
  }

  lemma UnrefReqFollows(s: State, s': State, r: ReqId, q: Req)
    requires ReqKnown(s, r) && q.conn == s.reqs[r].conn && q.sent <= |q.data|
    requires s' == UnrefReq(WithReq(s, r, q), r)
    ensures Follows(s, s')
  {
    UnrefShape2(s, s', r, q);
    QuietConnFollows(s, s', q.conn);
  }

  lemma HolderFollows(s: State, a: Action)
    requires Enabled(s, a)
    requires a.ClientResumes? || a.ClientAddrefs? || a.ClientReleases? || a.ClientCloses? || a.ClientClosesAndWaits?
          || a.RoomGrows? || a.SocketBreaks?
    ensures Follows(s, Next(s, a))
  {
    QuietConnFollows(s, Next(s, a), a.c);
  }

  lemma RequesterFollows(s: State, a: Action)
    requires Enabled(s, a)
    requires a.ClientSends? || a.ClientReleasesReq? || a.ClientBreaks?
    ensures Follows(s, Next(s, a))
  {
    var s' := Next(s, a);
    match a
    case ClientSends(r, c, data, cb) => QuietConnFollows(s, s', c);
    case ClientReleasesReq(r) => UnrefReqFollows(s, s', r, s.reqs[r].(clientRef := false));
    case ClientBreaks(r) => SameConnsFollow(s, s');
  }

  lemma DialFollows(s: State, c: ConnId, read: bool, ok: bool)
    requires c in s.conns && s.conns[c].cbs == UNDIALLED && !s.conns[c].dialled
    ensures Follows(s, Dial(s, c, read, ok))
  {
    QuietConnFollows(s, Dial(s, c, read, ok), c);
  }

  lemma NewcomersFollow(s: State, c: ConnId, read: bool)
    requires c !in s.conns
    ensures Follows(s, MakeConn(s, c)) && Follows(s, Connect(s, c, read))
  {
    NewConnFollows(s, MakeConn(s, c), c);
    NewConnFollows(s, Connect(s, c, read), c);
  }

  lemma NotYetDialled(s: State, c: ConnId)
    requires Inv(s) && c in s.conns && !s.conns[c].dialled
    ensures s.conns[c].cbs == UNDIALLED
  {
    assert ConnOk(s, c);
  }

  lemma MakerFollows(s: State, a: Action)
    requires Inv(s) && Enabled(s, a) && (a.ClientMakes? || a.ClientConnects? || a.ClientDials?)
    ensures Follows(s, Next(s, a))
  {
    if a.ClientDials? {
      NotYetDialled(s, a.c);
      DialFollows(s, a.c, a.read, a.ok);
    } else {
      NewcomersFollow(s, a.c, a.ClientConnects? && a.read);
    }
  }

  lemma ClientFollows(s: State, a: Action)
    requires Inv(s) && Enabled(s, a)
    requires !a.HandlesMessage? && !a.HandlesEvent? && !a.HandlesListener? && !a.Idles?
    ensures Follows(s, Next(s, a))
  {
    if a.ClientMakes? || a.ClientConnects? || a.ClientDials? {
      MakerFollows(s, a);
    } else if a.ClientCounts? {
      CountFollows(s);
    } else if a.ClientStopsAccepting? || a.ClientSetsLimit? || a.TimePasses? {
      SameConnsFollow(s, Next(s, a));
    } else if a.ClientSends? || a.ClientReleasesReq? || a.ClientBreaks? {
      RequesterFollows(s, a);
    } else {
      HolderFollows(s, a);
    }
  }

  lemma MessageFollows(s: State)
    requires Inv(s) && Enabled(s, HandlesMessage) && !ClosesUnissued(s)
    ensures Follows(s, Next(s, HandlesMessage))
  {
    PopMessageInv(s);
    PopMessageFollows(s);
  }

  lemma ThreadFollows(s: State, a: Action)
    requires Inv(s) && Enabled(s, a) && Orderly(s, a)
    requires a.HandlesEvent? || a.HandlesListener? || a.Idles?
    ensures Follows(s, Next(s, a))
  {
    if a.HandlesEvent? {
      EventFollows(s, a.e);
    } else if a.HandlesListener? {
      AcceptAllFollows(s, a.news);
    } else {
      IdleFollows(s, a.tour, a.fpu);
    }
  }

  lemma StepFollows(s: State, a: Action)
    requires Inv(s) && Enabled(s, a) && Orderly(s, a)
    ensures Follows(s, Next(s, a))
  {
    if a.HandlesMessage? {
      MessageFollows(s);
    } else if a.HandlesEvent? || a.HandlesListener? || a.Idles? {
      ThreadFollows(s, a);
    } else {
      ClientFollows(s, a);
    }
  }

  /** Over every run, calls are only added, states only move forward, a closed connection stays as it is. */
  lemma {:induction false} RunFollows(s: State, run: seq<Action>)
    requires Inv(s) && OrderlyRun(s, run)
    ensures ValidRun(s, run) && Follows(s, After(s, run))
    decreases |run|
  {
    if |run| == 0 {
      SameConnsFollow(s, s);
    } else {
      var s1 := Next(s, run[0]);
      StepInv(s, run[0]);
      StepFollows(s, run[0]);
      RunFollows(s1, run[1..]);
      FollowsTransitive(s, s1, After(s1, run[1..]));
    }
  }
}

/** Network events, accepting and idle turns keep the dispatcher's invariant; every run keeps it. */
module EventStepProofs {
  import opened Bandwidth
  import opened CallbackProtocol
  import opened ClientStepProofs
  import opened Clock
  import opened DispatcherInvariant
  import opened DispatcherState
  import opened DispatcherSteps
  import opened FloatModel
  import opened Ids
  import opened SendStepProofs
  import opened ThreadStepProofs

  // ---------- sending leaves the life of every connection alone ----------

  /** A connection without what sending changes. */
  function Life(k: Conn): Conn
  {
    k.(refs := 0, sock := IDLE_SOCK, wire := [], log := [], doneLog := [])
  }

  function Lives(s: State): map<ConnId, Conn>
  {
    map d | d in s.conns :: Life(s.conns[d])
  }

  lemma AttemptKeepsLives(s: State, c: ConnId, i: nat, guess: Option<uint32>, w: World)
    requires Inv(s) && Listed(s, c, i)
    ensures Lives(Attempt(s, c, i, guess, w).s) == Lives(s)
  {
    ListedPending(s, c, i);
    DoSendOutcome(s, s.outgoings[c][i], guess, w);
    AttemptState(s, c, i, guess, w);
    OutcomeKeepsLives(s, DoSend(s, s.outgoings[c][i], guess, w).s, c);
  }

  lemma OutcomeKeepsLives(s: State, s': State, c: ConnId)
    requires c in s.conns && c in s'.conns && s'.conns == s.conns[c := s'.conns[c]]
    requires SameConnBooks(s.conns[c], s'.conns[c])
    ensures Lives(s') == Lives(s)
  {
  }

  lemma {:induction false} SendListKeepsLives(s: State, c: ConnId, i: nat, guess: Option<uint32>, w: World)
    requires Inv(s)
    ensures Lives(SendList(s, c, i, guess, w)) == Lives(s)
    decreases if c in s.outgoings then |s.outgoings[c]| - i else 0
  {
    if Listed(s, c, i) {
      AttemptInv(s, c, i, guess, w);
      AttemptKeepsLives(s, c, i, guess, w);
      var out := Attempt(s, c, i, guess, w);
      if !out.done {
        SendListKeepsLives(out.s, c, i + 1, out.guess, w);
      }
    }
  }

  lemma {:induction false} SendAllKeepsLives(s: State, order: seq<ConnId>, limited: bool, w: World)
    requires Inv(s)
    ensures Lives(SendAll(s, order, limited, w)) == Lives(s)
    decreases |order|
  {
    if |order| > 0 {
      var guess := GuessFor(s, order[0], limited);
      SendListInv(s, order[0], 0, guess, w);
      SendListKeepsLives(s, order[0], 0, guess, w);
      SendAllKeepsLives(SendList(s, order[0], 0, guess, w), order[1..], limited, w);
    }
  }

  lemma LifeOf(s: State, s': State, d: ConnId)
    requires Lives(s') == Lives(s) && d in s.conns
    ensures d in s'.conns && SameConnBooks(s.conns[d], s'.conns[d])
  {
    assert Lives(s)[d] == Life(s.conns[d]);
    assert d in Lives(s');
    assert Lives(s')[d] == Life(s'.conns[d]);
  }

  // ---------- events ----------

  lemma CloseConnectionInv(s: State, c: ConnId)
    requires Inv(s) && c in s.conns && s.conns[c].registered
    ensures Inv(CloseConnection(s, c))
  {
    assert ConnOk(s, c);
    var s' := CloseConnection(s, c);
    ClosedBooks(s, s', c);
    if s.conns[c].cbs.state != CsClosed {
      ConnOnly(s, s', c);
    }
  }

  lemma EstablishedBooks(s: State, c: ConnId)
    requires c in s.conns && ConnOk(s, c) && s.conns[c].registered
    ensures ConnOk(ConnectionEstablished(s, c), c)
  {
    EstablishedIsConsistent(s.conns[c].cbs);
  }

  lemma WriteEventInv(s: State, c: ConnId, w: World)
    requires Inv(s) && c in s.conns && s.conns[c].registered && s.conns[c].cbs.state != CsClosed
    ensures Inv(WriteEvent(s, c, w))
    ensures c in WriteEvent(s, c, w).conns
    ensures WriteEvent(s, c, w).conns[c].registered && WriteEvent(s, c, w).conns[c].cbs.state == CsConnected
  {
    assert ConnOk(s, c);
    if s.conns[c].cbs.connected {
      EstablishedBooks(s, c);
      ConnOnly(s, ConnectionEstablished(s, c), c);
    } else {
      var s1 := s.(bws := Switched(s.bws, c, true));
      BystanderInv(s, s1);
      SendListInv(s1, c, 0, None, w);
      SendListKeepsLives(s1, c, 0, None, w);
      LifeOf(s1, SendList(s1, c, 0, None, w), c);
    }
  }

  lemma WriteEventCases(s: State, c: ConnId, w: World)
    requires c in s.conns
    ensures var s1 := s.(bws := Switched(s.bws, c, true));
            WriteEvent(s, c, w) == if s.conns[c].cbs.connected then ConnectionEstablished(s, c)
                                   else if s.bws.maxBw == 0 then SendList(s1, c, 0, None, w) else s1
  {
  }

  /** Data reported for a connection that is still connecting, and handed to the client. */
  ghost predicate EarlyData(s: State, e: NetEvent)
    requires e.c in s.conns
  {
    && !e.close && !e.write && e.read && (e.res == Got || e.res == GotAndThrew)
    && s.conns[e.c].cbs.state == CsWait4Connect && s.conns[e.c].cbs.read
  }

  lemma RecvBooks(s: State, s': State, c: ConnId, res: RecvResult)
    requires c in s.conns && ConnOk(s, c)
    requires c in s'.conns && s'.conns[c] == s.conns[c].(cbs := DoRecv(s.conns[c].cbs, res).0)
    requires s'.reqs == s.reqs && s'.queue == s.queue
    requires !(s.conns[c].cbs.read && s.conns[c].cbs.state == CsWait4Connect && (res == Got || res == GotAndThrew))
    ensures ConnOk(s', c)
  {
    ReceivedIsConsistent(s.conns[c].cbs);
  }

  lemma RecvEventInv(s: State, c: ConnId, res: RecvResult)
    requires Inv(s) && c in s.conns && s.conns[c].registered
    requires !(s.conns[c].cbs.read && s.conns[c].cbs.state == CsWait4Connect && (res == Got || res == GotAndThrew))
    ensures Inv(RecvEvent(s, c, res))
  {
    assert ConnOk(s, c);
    var (cbs, open) := DoRecv(s.conns[c].cbs, res);
    var s' := WithConn(s, c, s.conns[c].(cbs := cbs));
    RecvBooks(s, s', c, res);
    ConnOnly(s, s', c);
    if !open {
      CloseConnectionInv(s', c);
    }
  }

  lemma DeliveredInv(s: State, c: ConnId, write: bool)
    requires Inv(s) && c in s.conns
    ensures Inv(Delivered(s, c, write))
  {
    if write {
      KernelConnInv(s, c, Delivered(s, c, write).conns[c]);
    }
  }

  lemma OrderlyEventInv(s: State, e: NetEvent)
    requires Inv(s) && Enabled(s, HandlesEvent(e)) && !EarlyData(s, e)
    ensures Inv(Event(s, e))
  {
    var s0 := Delivered(s, e.c, e.write);
    DeliveredInv(s, e.c, e.write);
    if e.close {
      CloseConnectionInv(s0, e.c);
    } else if e.write {
      WriteEventInv(s0, e.c, e.w);
      if e.read {
        RecvEventInv(WriteEvent(s0, e.c, e.w), e.c, e.res);
      }
    } else if e.read {
      RecvEventInv(s0, e.c, e.res);
    }
  }

  /** Early data is the only event that breaks the promise made to clients. */
  lemma EarlyDataBreaksTheProtocol(s: State, e: NetEvent)
    requires Inv(s) && Enabled(s, HandlesEvent(e)) && EarlyData(s, e)
    ensures !Consistent(Event(s, e).conns[e.c].cbs)
    ensures !InLanguage(Event(s, e).conns[e.c].cbs.trace)
  {
    assert Consistent(s.conns[e.c].cbs) by {
      assert ConnOk(s, e.c);
    }
    AutomatonIsLanguage(s.conns[e.c].cbs.trace);
    EarlyDataTrace(s, e);
    ReadComesFirst(Event(s, e).conns[e.c].cbs.trace);
  }

  lemma EarlyDataTrace(s: State, e: NetEvent)
    requires e.c in s.conns && EarlyData(s, e) && s.conns[e.c].cbs.trace == []
    ensures e.c in Event(s, e).conns
    ensures Event(s, e).conns[e.c].cbs.trace == if e.res == Got then [CallRead] else [CallRead] + [CallRefused]
  {
    ReadOnlyEvent(s, e);
    EarlyReadTrace(s, e.c, e.res);
  }

  lemma ReadOnlyEvent(s: State, e: NetEvent)
    requires e.c in s.conns && !e.close && !e.write && e.read
    ensures Event(s, e) == RecvEvent(s, e.c, e.res)
  {
  }

  lemma EarlyReadTrace(s: State, c: ConnId, res: RecvResult)
    requires c in s.conns && (res == Got || res == GotAndThrew)
    requires s.conns[c].cbs.read && s.conns[c].cbs.state == CsWait4Connect && s.conns[c].cbs.trace == []
    ensures c in RecvEvent(s, c, res).conns
    ensures RecvEvent(s, c, res).conns[c].cbs.trace == if res == Got then [CallRead] else [CallRead] + [CallRefused]
  {
    assert [] + [CallRead] == [CallRead];
  }

  lemma ReadComesFirst(trace: seq<Call>)
    requires trace == [CallRead] || trace == [CallRead] + [CallRefused]
    ensures JudgeAll(trace) == Broken && !InLanguage(trace)
  {
    JudgeOne([], CallRead);
    assert [] + [CallRead] == [CallRead];
    JudgeOne([CallRead], CallRefused);
    AutomatonIsLanguage(trace);
  }

  /** An event keeps the invariant exactly when it is not early data. */
  lemma EventInv(s: State, e: NetEvent)
    requires Inv(s) && Enabled(s, HandlesEvent(e))
    ensures Inv(Event(s, e)) <==> !EarlyData(s, e)
  {
    if EarlyData(s, e) {
      EarlyDataBreaksTheProtocol(s, e);
      assert !ConnOk(Event(s, e), e.c);
    } else {
      OrderlyEventInv(s, e);
    }
  }

  // ---------- accepting ----------

  lemma AcceptConnectionInv(s: State, n: Newcomer)
    requires Inv(s) && n.c !in s.conns
    ensures Inv(AcceptConnection(s, n))
  {
    if s.accepted {
      NothingAboutTheUnknown(s, n.c);
      FreshIsConsistent(n.read);
      ConnOnly(s, AcceptConnection(s, n), n.c);
    }
  }

  lemma {:induction false} AcceptAllInv(s: State, news: seq<Newcomer>)
    requires Inv(s) && FreshNewcomers(s, news)
    ensures Inv(AcceptAll(s, news))
    ensures AcceptAll(s, news).conns.Keys <= s.conns.Keys + set n | n in news :: n.c
  {
    if |news| > 0 {
      var init, last := news[..|news| - 1], news[|news| - 1];
      AcceptAllInv(s, init);
      assert last.c !in AcceptAll(s, init).conns;
      AcceptConnectionInv(AcceptAll(s, init), last);
      forall c | c in AcceptAll(s, news).conns
        ensures c in s.conns.Keys + set n | n in news :: n.c
      {
        if c == last.c {
          assert last in news;
        } else if c !in s.conns {
          var n :| n in init && n.c == c;
          assert n in news;
        }
      }
    }
  }

  // ---------- idle turns ----------

  lemma LimitedTurnInv(s: State, tour: Tour, fpu: Fpu)
    requires Inv(s)
    ensures Inv(LimitedTurn(s, tour, fpu))
  {
    if s.bws.maxBw == 0 {
      SendAllInv(s, tour.order, true, tour.second);
    } else {
      RecalculatedInv(s, fpu);
      SendAllInv(s.(bws := Recalculated(s.bws, OfMs(s.now), fpu)), tour.order, true, tour.second);
    }
  }

  lemma RecalculatedInv(s: State, fpu: Fpu)
    requires Inv(s)
    ensures Inv(s.(bws := Recalculated(s.bws, OfMs(s.now), fpu)))
  {
    BystanderInv(s, s.(bws := Recalculated(s.bws, OfMs(s.now), fpu)));
  }

  lemma IdleInv(s: State, tour: Tour, fpu: Fpu)
    requires Inv(s)
    ensures Inv(Idle(s, tour, fpu))
  {
    SendAllInv(s, tour.order, false, tour.first);
    LimitedTurnInv(if s.bws.maxBw == 0 then SendAll(s, tour.order, false, tour.first) else s, tour, fpu);
  }

  // ---------- every step and every run ----------

  /** The kernel reports data on a connecting socket together with its writability. */
  ghost predicate Timely(s: State, a: Action)
  {
    a.HandlesEvent? && a.e.c in s.conns ==> !EarlyData(s, a.e)
  }

  /** The step that ends the process: the closing of a connection whose connect failed at once. */
  predicate Crashes(s: State, a: Action)
  {
    a.HandlesMessage? && ClosesUnissued(s)
  }

  ghost predicate Orderly(s: State, a: Action)
  {
    Timely(s, a) && !Crashes(s, a)
  }

  lemma MakerInv(s: State, a: Action)
    requires Inv(s) && Enabled(s, a) && (a.ClientMakes? || a.ClientConnects? || a.ClientDials?)
    ensures Inv(Next(s, a))
  {
    match a
    case ClientMakes(c) => MakeConnInv(s, c);
    case ClientDials(c, read, ok) => DialInv(s, c, read, ok);
    case ClientConnects(c, read) => ConnectInv(s, c, read);
  }

  lemma CloserInv(s: State, a: Action)
    requires Inv(s) && Enabled(s, a) && (a.ClientCloses? || a.ClientClosesAndWaits? || a.ClientResumes?)
    ensures Inv(Next(s, a))
  {
    match a
    case ClientCloses(c) => CloseConnInv(s, c);
    case ClientClosesAndWaits(c) => CloseConnWaitInv(s, c);
    case ClientResumes(c) => ResumeInv(s, c);
  }

  lemma HolderInv(s: State, a: Action)
    requires Inv(s) && Enabled(s, a) && (a.ClientAddrefs? || a.ClientReleases?)
    ensures Inv(Next(s, a))
  {
    match a
    case ClientAddrefs(c) => AddrefInv(s, c);
    case ClientReleases(c) => ReleaseInv(s, c);
  }

  lemma KernelInv(s: State, a: Action)
    requires Inv(s) && Enabled(s, a) && (a.RoomGrows? || a.SocketBreaks?)
    ensures Inv(Next(s, a))
  {
    KernelConnInv(s, a.c, Next(s, a).conns[a.c]);
  }

  lemma RequesterInv(s: State, a: Action)
    requires Inv(s) && Enabled(s, a) && (a.ClientSends? || a.ClientReleasesReq? || a.ClientBreaks?)
    ensures Inv(Next(s, a))
  {
    match a
    case ClientSends(r, c, data, cb) => SendInv(s, r, c, data, cb);
    case ClientReleasesReq(r) =>
      assert ReqOk(s, r);
      ReleaseReqInv(s, r);
    case ClientBreaks(r) => BreakInv(s, r);
  }

  lemma ClientInv(s: State, a: Action)
    requires Inv(s) && Enabled(s, a)
    requires !a.HandlesMessage? && !a.HandlesEvent? && !a.HandlesListener? && !a.Idles?
    ensures Inv(Next(s, a))
  {
    if a.ClientMakes? || a.ClientConnects? || a.ClientDials? {
      MakerInv(s, a);
    } else if a.ClientSends? || a.ClientReleasesReq? || a.ClientBreaks? {
      RequesterInv(s, a);
    } else if a.ClientCounts? || a.ClientStopsAccepting? || a.ClientSetsLimit? || a.TimePasses? {
      BystanderInv(s, Next(s, a));
    } else if a.RoomGrows? || a.SocketBreaks? {
      KernelInv(s, a);
    } else if a.ClientAddrefs? || a.ClientReleases? {
      HolderInv(s, a);
    } else {
      CloserInv(s, a);
    }
  }

  lemma MessageInv(s: State)
    requires Inv(s) && Enabled(s, HandlesMessage) && !ClosesUnissued(s)
    ensures Inv(Next(s, HandlesMessage))
  {
    PopMessageInv(s);
  }

  lemma ThreadInv(s: State, a: Action)
    requires Inv(s) && Enabled(s, a) && Orderly(s, a) && (a.HandlesEvent? || a.HandlesListener? || a.Idles?)
    ensures Inv(Next(s, a))
  {
    if a.HandlesEvent? {
      OrderlyEventInv(s, a.e);
    } else if a.HandlesListener? {
      AcceptAllInv(s, a.news);
    } else {
      IdleInv(s, a.tour, a.fpu);
    }
  }

  lemma StepInv(s: State, a: Action)
    requires Inv(s) && Enabled(s, a) && Orderly(s, a)
    ensures Inv(Next(s, a))
  {
    if a.HandlesMessage? {
      MessageInv(s);
    } else if a.HandlesEvent? || a.HandlesListener? || a.Idles? {
      ThreadInv(s, a);
    } else {
      ClientInv(s, a);
    }
  }

  lemma EarlyDataCrashesNothing(s: State, e: NetEvent)
    requires Inv(s) && Enabled(s, HandlesEvent(e)) && EarlyData(s, e)
    ensures !Event(s, e).crashed
  {
    assert ConnOk(s, e.c);
  }

  /** A step crashes the process exactly when it is the closing of a connection whose connect failed at once. */
  lemma StepCrashes(s: State, a: Action)
    requires Inv(s) && Enabled(s, a)
    ensures Next(s, a).crashed <==> Crashes(s, a)
  {
    if Crashes(s, a) {
      MessageCrashes(s);
    } else if a.HandlesEvent? && EarlyData(s, a.e) {
      EarlyDataCrashesNothing(s, a.e);
    } else {
      StepInv(s, a);
    }
  }

  ghost predicate OrderlyRun(s: State, run: seq<Action>)
    decreases |run|
  {
    |run| == 0 || (Enabled(s, run[0]) && Orderly(s, run[0]) && OrderlyRun(Next(s, run[0]), run[1..]))
  }

  /** The invariant holds after every run, whatever clients, kernel and dispatcher do in whatever order. */
  lemma {:induction false} RunInv(s: State, run: seq<Action>)
    requires Inv(s) && OrderlyRun(s, run)
    ensures ValidRun(s, run) && Inv(After(s, run))
    decreases |run|
  {
    if |run| > 0 {
      StepInv(s, run[0]);
      RunInv(Next(s, run[0]), run[1..]);
    }
  }

  /** What the uninitialised total and guesses of the limiter hold, and the time. */
  datatype Start = Start(total: uint32, unset: uint32, now: nat)

  function Initial(start: Start): State
  {
    InitialState(start.total, start.unset, start.now)
  }

  /** `s` is where a run from the dispatcher's start has come. */
  ghost predicate Reached(s: State, start: Start, run: seq<Action>)
  {
    OrderlyRun(Initial(start), run) && ValidRun(Initial(start), run) && s == After(Initial(start), run)
  }

  ghost predicate TimelyRun(s: State, run: seq<Action>)
    decreases |run|
  {
    |run| == 0 || (Enabled(s, run[0]) && Timely(s, run[0]) && TimelyRun(Next(s, run[0]), run[1..]))
  }

  /** Every run that leaves the process alive is an orderly one, so what holds after those holds in every live state. */
  lemma {:induction false} LiveRunsAreOrderly(s: State, run: seq<Action>)
    requires Inv(s) && TimelyRun(s, run) && ValidRun(s, run) && !After(s, run).crashed
    ensures OrderlyRun(s, run)
    decreases |run|
  {
    if |run| > 0 {
      StepCrashes(s, run[0]);
      if !Crashes(s, run[0]) {
        StepInv(s, run[0]);
        LiveRunsAreOrderly(Next(s, run[0]), run[1..]);
      }
    }
  }

  lemma ReachedInv(s: State, start: Start, run: seq<Action>)
    requires Reached(s, start, run)
    ensures Inv(s)
  {
    InitialInv(start.total, start.unset, start.now);
    RunInv(Initial(start), run);
  }
}

/**
 The two Windows dispatchers as far as callbacks, `close_conn_wait` and `stop_accepting` go: the one
 whose connects and accepts complete at the port, and the one with a listening thread that posts
 socket events as messages.
 */
module PortDispatcherSteps {
  import opened CallbackProtocol
  import opened Ids

  /** `created`: the dispatcher has taken the create message. `waiters` is history. */
  datatype PConn = PConn(cbs: Callbacks, created: bool, closeSem: nat, waiters: nat)

  datatype SocketEvent = FdAccept | FdConnect | FdClose

  datatype PMsg =
    | StopAccepting
    | Create(c: ConnId)
    | Close(c: ConnId)
    | CloseWait(c: ConnId)
    | External(c: ConnId, event: SocketEvent)

  /**
   `recvs` are the connections with a posted receive. History: the threads inside `stop_accepting`,
   how many have returned from it, and how often the client's `accepted` was called.
   */
  datatype PState = PState(
    queue: seq<PMsg>,
    conns: map<ConnId, PConn>,
    recvs: set<ConnId>,
    accepted: bool,
    stopSem: nat,
    running: bool,
    stoppers: nat,
    returned: nat,
    acceptCalls: nat)

  const START := PState([], map[], {}, true, 0, true, 0, 0, 0)

  datatype Kind = Overlapped | ListeningThread

  /**
   How the system calls of a step come out: whether the operation it starts is accepted by the
   system, the object a new connection gets, whether it wants data, and whether its receive is posted.
   */
  datatype Env = Env(ok: bool, c: ConnId, read: bool, recvOk: bool)

  datatype Transfer = Bytes | BytesAndThrew | Nothing

  datatype PAction =
    | ClientConnects(c: ConnId, read: bool)
    | ClientCloses(c: ConnId)
    | ClientClosesAndWaits(c: ConnId)
    | ClientResumes(c: ConnId)
    | ClientStopsAccepting
    | ClientStopReturns
    | HandlesMessage(env: Env)
    | ConnectCompletes(c: ConnId, recvOk: bool)
    | AcceptCompletes(env: Env)
    | SocketReports(c: ConnId, event: SocketEvent)
    | RecvCompletes(c: ConnId, got: Transfer, again: bool)
    | PortCloses(c: ConnId)
    | ThreadEnds

  // ---------- what the steps do ----------

  function WithConn(s: PState, c: ConnId, k: PConn): PState
  {
    s.(conns := s.conns[c := k])
  }

  function Posted(s: PState, m: PMsg): PState
  {
    s.(queue := s.queue + [m])
  }

  /** `close_connection`. */
  function CloseConnection(s: PState, c: ConnId): PState
    requires c in s.conns
  {
    WithConn(s, c, s.conns[c].(cbs := Shut(s.conns[c].cbs)))
  }

  /** `activate_receiving`, and the closing when it fails. */
  function Activated(s: PState, c: ConnId, recvOk: bool): PState
    requires c in s.conns
  {
    if recvOk then s.(recvs := s.recvs + {c}) else CloseConnection(s, c)
  }

  /** A finished connect: nothing once the connection has been closed. */
  function ConnectionEstablished(s: PState, c: ConnId, recvOk: bool): PState
    requires c in s.conns
  {
    var k := s.conns[c];
    if !k.cbs.connected then s
    else Activated(WithConn(s, c, k.(cbs := Established(k.cbs))), c, recvOk)
  }

  /** The client's `accepted` has been called with a new connection. */
  function WithNewcomer(s: PState, env: Env): PState
  {
    WithConn(s, env.c, PConn(JustAccepted(env.read), true, 0, 0)).(acceptCalls := s.acceptCalls + 1)
  }

  function AcceptConnection(s: PState, env: Env): PState
  {
    if !s.accepted then s else Activated(WithNewcomer(s, env), env.c, env.recvOk)
  }

  /** A finished receive: the callback, and another receive or the closing. */
  function RecvComplete(s: PState, c: ConnId, got: Transfer, again: bool): PState
    requires c in s.conns
  {
    var k := s.conns[c];
    var s1 := if got == Nothing then s else WithConn(s, c, k.(cbs := Received(k.cbs)));
    if got != Nothing && !(got == BytesAndThrew && k.cbs.read) && again then s1
    else CloseConnection(s1.(recvs := s.recvs - {c}), c)
  }

  predicate Known(s: PState, m: PMsg)
  {
    match m
    case StopAccepting => true
    case Create(c) => c in s.conns
    case Close(c) => c in s.conns
    case CloseWait(c) => c in s.conns
    case External(c, event) => event == FdAccept || c in s.conns
  }

  function Handle(kind: Kind, s: PState, m: PMsg, env: Env): PState
    requires Known(s, m)
  {
    match m
    case StopAccepting => s.(accepted := false, stopSem := s.stopSem + 1)
    case Create(c) =>
      if kind == Overlapped && !env.ok then s.(running := false)
      else WithConn(s, c, s.conns[c].(created := true))
    case Close(c) => CloseConnection(s, c)
    case CloseWait(c) =>
      var s' := CloseConnection(s, c);
      WithConn(s', c, s'.conns[c].(closeSem := s'.conns[c].closeSem + 1))
    case External(c, event) =>
      match event
      case FdAccept => if env.ok then AcceptConnection(s, env) else s
      case FdConnect => ConnectionEstablished(s, c, env.recvOk)
      case FdClose => CloseConnection(s, c)
  }

  function PopMessage(kind: Kind, s: PState, env: Env): PState
    requires |s.queue| > 0 && Known(s, s.queue[0])
  {
    Handle(kind, s.(queue := s.queue[1..]), s.queue[0], env)
  }

  // ---------- who may do what ----------

  predicate Enabled(kind: Kind, s: PState, a: PAction)
  {
    match a
    case ClientConnects(c, _) => c !in s.conns
    case ClientCloses(c) => c in s.conns
    case ClientClosesAndWaits(c) => c in s.conns
    case ClientResumes(c) => c in s.conns && s.conns[c].closeSem > 0 && s.conns[c].waiters > 0
    case ClientStopsAccepting => true
    case ClientStopReturns => s.stopSem > 0 && s.stoppers > 0
    case HandlesMessage(env) => s.running && |s.queue| > 0 && Known(s, s.queue[0]) && env.c !in s.conns
    case ConnectCompletes(c, _) => kind == Overlapped && s.running && c in s.conns && s.conns[c].created
    case AcceptCompletes(env) => kind == Overlapped && s.running && env.c !in s.conns
    case SocketReports(c, event) => kind == ListeningThread && (event == FdAccept || c in s.conns)
    case RecvCompletes(c, _, _) => s.running && c in s.recvs && c in s.conns
    case PortCloses(c) => s.running && c in s.conns && s.conns[c].created
    case ThreadEnds => true
  }

  function Next(kind: Kind, s: PState, a: PAction): PState
    requires Enabled(kind, s, a)
  {
    match a
    case ClientConnects(c, read) => Posted(WithConn(s, c, PConn(Dialled(read), false, 0, 0)), Create(c))
    case ClientCloses(c) => Posted(s, Close(c))
    case ClientClosesAndWaits(c) =>
      Posted(WithConn(s, c, s.conns[c].(waiters := s.conns[c].waiters + 1)), CloseWait(c))
    case ClientResumes(c) =>
      WithConn(s, c, s.conns[c].(closeSem := s.conns[c].closeSem - 1, waiters := s.conns[c].waiters - 1))
    case ClientStopsAccepting => Posted(s, StopAccepting).(stoppers := s.stoppers + 1)
    case ClientStopReturns =>
      s.(stopSem := s.stopSem - 1, stoppers := s.stoppers - 1, returned := s.returned + 1)
    case HandlesMessage(env) => PopMessage(kind, s, env)
    case ConnectCompletes(c, recvOk) => ConnectionEstablished(s, c, recvOk)
    case AcceptCompletes(env) =>
      if env.ok then AcceptConnection(s, env) else AcceptConnection(s, env).(running := false)
    case SocketReports(c, event) => Posted(s, External(c, event))
    case RecvCompletes(c, got, again) => RecvComplete(s, c, got, again)
    case PortCloses(c) => CloseConnection(s, c)
    case ThreadEnds => s.(running := false)
  }

  ghost predicate ValidRun(kind: Kind, s: PState, run: seq<PAction>)
    decreases |run|
  {
    |run| == 0 || (Enabled(kind, s, run[0]) && ValidRun(kind, Next(kind, s, run[0]), run[1..]))
  }

  ghost function After(kind: Kind, s: PState, run: seq<PAction>): PState
    requires ValidRun(kind, s, run)
    decreases |run|
  {
    if |run| == 0 then s else After(kind, Next(kind, s, run[0]), run[1..])
  }
}

/** Both Windows dispatchers keep the callback protocol, wake every waiter and stop accepting for good. */
module PortDispatcherProofs {
  import opened CallbackProtocol
  import opened Ids
  import opened PortDispatcherSteps

  ghost function InQueue(s: PState, m: PMsg): nat
  {
    multiset(s.queue)[m]
  }

  ghost predicate ConnOk(s: PState, c: ConnId)
    requires c in s.conns
  {
    var k := s.conns[c];
    && Consistent(k.cbs)
    && (k.cbs.state == CsWait4Connect ==> k.cbs.connected)
    && k.waiters == InQueue(s, CloseWait(c)) + k.closeSem
    && (k.closeSem > 0 ==> k.cbs.state == CsClosed)
  }

  /** A receive is posted only once the connection has been established. */
  ghost predicate RecvOk(s: PState, c: ConnId)
  {
    c in s.recvs ==> c in s.conns && s.conns[c].cbs.state != CsWait4Connect
  }

  /** Whoever waits in `stop_accepting` has a message or a post; a post means accepting is over. */
  ghost predicate StopOk(s: PState)
  {
    && s.stoppers == InQueue(s, StopAccepting) + s.stopSem
    && (s.stopSem > 0 || s.returned > 0 ==> !s.accepted)
  }

  ghost predicate QueueOk(s: PState)
  {
    forall i :: 0 <= i < |s.queue| ==> Known(s, s.queue[i])
  }

  ghost predicate Inv(s: PState)
  {
    && (forall c :: c in s.conns ==> ConnOk(s, c))
    && (forall c :: c in s.recvs ==> RecvOk(s, c))
    && StopOk(s) && QueueOk(s)
  }

  lemma StartInv()
    ensures Inv(START)
  {
  }

  // ---------- one connection at a time ----------

  /** Only connection `c` and its receive changed; messages about other things stay. */
  lemma OneConn(s: PState, s': PState, c: ConnId)
    requires Inv(s) && c in s'.conns && s'.conns == s.conns[c := s'.conns[c]]
    requires s'.recvs - {c} <= s.recvs
    requires forall d :: d != c ==> InQueue(s', CloseWait(d)) == InQueue(s, CloseWait(d))
    requires ConnOk(s', c) && RecvOk(s', c) && StopOk(s') && QueueOk(s')
    ensures Inv(s')
  {
    forall d | d in s'.conns
      ensures ConnOk(s', d)
    {
      if d != c {
        assert ConnOk(s, d);
      }
    }
    forall d | d in s'.recvs
      ensures RecvOk(s', d)
    {
      if d != c {
        assert d in s'.recvs - {c};
        assert RecvOk(s, d);
      }
    }
  }

  /** The queue did not change. */
  lemma OneConnOnly(s: PState, s': PState, c: ConnId)
    requires Inv(s) && c in s'.conns
    requires s' == s.(conns := s.conns[c := s'.conns[c]], recvs := s'.recvs, acceptCalls := s'.acceptCalls, running := s'.running)
    requires s'.recvs - {c} <= s.recvs && ConnOk(s', c) && RecvOk(s', c)
    ensures Inv(s')
  {
    forall i | 0 <= i < |s'.queue|
      ensures Known(s', s'.queue[i])
    {
      assert Known(s, s.queue[i]);
    }
    OneConn(s, s', c);
  }

  lemma Unheard(s: PState, c: ConnId)
    requires Inv(s) && c !in s.conns
    ensures InQueue(s, CloseWait(c)) == 0 && c !in s.recvs
  {
    forall i | 0 <= i < |s.queue|
      ensures s.queue[i] != CloseWait(c)
    {
      assert Known(s, s.queue[i]);
    }
    assert CloseWait(c) !in multiset(s.queue);
    assert c in s.recvs ==> RecvOk(s, c);
  }

  lemma CloseInv(s: PState, c: ConnId)
    requires Inv(s) && c in s.conns
    ensures Inv(CloseConnection(s, c))
  {
    assert ConnOk(s, c) && (c in s.recvs ==> RecvOk(s, c));
    ShutIsConsistent(s.conns[c].cbs);
    OneConnOnly(s, CloseConnection(s, c), c);
  }

  lemma ActivatedInv(s: PState, c: ConnId, recvOk: bool)
    requires Inv(s) && c in s.conns && s.conns[c].cbs.state != CsWait4Connect
    ensures Inv(Activated(s, c, recvOk))
  {
    if recvOk {
      assert ConnOk(s, c);
      assert s.conns == s.conns[c := s.conns[c]];
      OneConnOnly(s, Activated(s, c, recvOk), c);
    } else {
      CloseInv(s, c);
    }
  }

  lemma EstablishedInv(s: PState, c: ConnId, recvOk: bool)
    requires Inv(s) && c in s.conns
    ensures Inv(ConnectionEstablished(s, c, recvOk))
  {
    assert ConnOk(s, c) && (c in s.recvs ==> RecvOk(s, c));
    var k := s.conns[c];
    if k.cbs.connected {
      EstablishedIsConsistent(k.cbs);
      OneConnOnly(s, WithConn(s, c, k.(cbs := Established(k.cbs))), c);
      ActivatedInv(WithConn(s, c, k.(cbs := Established(k.cbs))), c, recvOk);
    }
  }

  lemma NewcomerInv(s: PState, env: Env)
    requires Inv(s) && env.c !in s.conns
    ensures Inv(WithNewcomer(s, env))
  {
    Unheard(s, env.c);
    FreshIsConsistent(env.read);
    OneConnOnly(s, WithNewcomer(s, env), env.c);
  }

  lemma AcceptInv(s: PState, env: Env)
    requires Inv(s) && env.c !in s.conns
    ensures Inv(AcceptConnection(s, env))
  {
    if s.accepted {
      NewcomerInv(s, env);
      ActivatedInv(WithNewcomer(s, env), env.c, env.recvOk);
    }
  }

  /** What a finished receive leaves: the callbacks after the call, or after the closing that follows it. */
  lemma RecvShape(s: PState, c: ConnId, got: Transfer, again: bool)
    requires c in s.conns
    ensures var s', k := RecvComplete(s, c, got, again), s.conns[c];
            var cbs := if got == Nothing then k.cbs else Received(k.cbs);
            && c in s'.conns && (s'.conns[c].cbs == cbs || s'.conns[c].cbs == Shut(cbs))
            && s'.conns[c] == k.(cbs := s'.conns[c].cbs)
            && s' == s.(conns := s.conns[c := s'.conns[c]], recvs := s'.recvs)
            && (s'.recvs == s.recvs || s'.recvs == s.recvs - {c})
  {
    assert s.conns == s.conns[c := s.conns[c]];
  }

  lemma RecvConsistent(k: Callbacks, cbs: Callbacks)
    requires Consistent(k) && k.state != CsWait4Connect && (cbs == k || cbs == Received(k))
    ensures Consistent(cbs) && Consistent(Shut(cbs)) && cbs.state == k.state && Shut(cbs).state == CsClosed
    ensures Later(k, cbs) && Later(k, Shut(cbs))
  {
    ReceivedIsConsistent(k);
    ShutIsConsistent(cbs);
    LaterIsTransitive(k, cbs, Shut(cbs));
  }

  /** Data comes only from a posted receive, so never before the connection is established. */
  lemma RecvInv(s: PState, c: ConnId, got: Transfer, again: bool)
    requires Inv(s) && c in s.conns && c in s.recvs
    ensures Inv(RecvComplete(s, c, got, again))
  {
    assert ConnOk(s, c) && RecvOk(s, c);
    var k := s.conns[c].cbs;
    RecvShape(s, c, got, again);
    RecvConsistent(k, if got == Nothing then k else Received(k));
    OneConnOnly(s, RecvComplete(s, c, got, again), c);
  }

  // ---------- messages ----------

  lemma PopCounts(s: PState, s': PState, m: PMsg)
    requires |s.queue| > 0 && s'.queue == s.queue[1..]
    ensures InQueue(s, m) == InQueue(s', m) + if m == s.queue[0] then 1 else 0
  {
    assert s.queue == [s.queue[0]] + s.queue[1..];
  }

  /** Messages that nobody is counted by may simply leave. */
  lemma PopQuietInv(s: PState)
    requires Inv(s) && |s.queue| > 0 && !s.queue[0].CloseWait? && !s.queue[0].StopAccepting?
    ensures Inv(s.(queue := s.queue[1..]))
  {
    var s' := s.(queue := s.queue[1..]);
    PopCounts(s, s', StopAccepting);
    forall c | c in s'.conns
      ensures ConnOk(s', c)
    {
      assert ConnOk(s, c);
      PopCounts(s, s', CloseWait(c));
    }
    forall c | c in s'.recvs
      ensures RecvOk(s', c)
    {
      assert RecvOk(s, c);
    }
    forall i | 0 <= i < |s'.queue|
      ensures Known(s', s'.queue[i])
    {
      assert Known(s, s.queue[i + 1]);
    }
  }

  lemma PopStopInv(kind: Kind, s: PState, env: Env)
    requires Inv(s) && |s.queue| > 0 && s.queue[0] == StopAccepting
    ensures Inv(PopMessage(kind, s, env))
  {
    var s' := PopMessage(kind, s, env);
    PopCounts(s, s', StopAccepting);
    forall c | c in s'.conns
      ensures ConnOk(s', c)
    {
      assert ConnOk(s, c);
      PopCounts(s, s', CloseWait(c));
    }
    forall c | c in s'.recvs
      ensures RecvOk(s', c)
    {
      assert RecvOk(s, c);
    }
    forall i | 0 <= i < |s'.queue|
      ensures Known(s', s'.queue[i])
    {
      assert Known(s, s.queue[i + 1]);
    }
  }

  lemma PoppedKnown(s: PState, s': PState)
    requires QueueOk(s) && |s.queue| > 0 && s'.queue == s.queue[1..] && s'.conns.Keys == s.conns.Keys
    ensures QueueOk(s')
  {
    forall i | 0 <= i < |s'.queue|
      ensures Known(s', s'.queue[i])
    {
      assert Known(s, s.queue[i + 1]);
    }
  }

  lemma PopCloseWaitShape(kind: Kind, s: PState, env: Env, c: ConnId)
    requires |s.queue| > 0 && s.queue[0] == CloseWait(c) && c in s.conns
    ensures var s', k := PopMessage(kind, s, env), s.conns[c];
            && s' == s.(queue := s.queue[1..], conns := s'.conns) && c in s'.conns && s'.conns.Keys == s.conns.Keys
            && s'.conns == s.conns[c := k.(cbs := Shut(k.cbs), closeSem := k.closeSem + 1)]
  {
  }

  lemma PopCloseWaitInv(kind: Kind, s: PState, env: Env, c: ConnId)
    requires Inv(s) && |s.queue| > 0 && s.queue[0] == CloseWait(c) && c in s.conns
    ensures Inv(PopMessage(kind, s, env))
  {
    var s' := PopMessage(kind, s, env);
    PopCloseWaitShape(kind, s, env, c);
    assert ConnOk(s, c) && (c in s.recvs ==> RecvOk(s, c));
    ShutIsConsistent(s.conns[c].cbs);
    PopCounts(s, s', StopAccepting);
    PopCounts(s, s', CloseWait(c));
    forall d | d != c
      ensures InQueue(s', CloseWait(d)) == InQueue(s, CloseWait(d))
    {
      PopCounts(s, s', CloseWait(d));
    }
    PoppedKnown(s, s');
    OneConn(s, s', c);
  }

  lemma CreatedInv(kind: Kind, s: PState, env: Env, c: ConnId)
    requires Inv(s) && c in s.conns
    ensures Inv(Handle(kind, s, Create(c), env))
  {
    assert ConnOk(s, c) && (c in s.recvs ==> RecvOk(s, c));
    assert s.conns == s.conns[c := s.conns[c]];
    OneConnOnly(s, Handle(kind, s, Create(c), env), c);
  }

  lemma PopMessageInv(kind: Kind, s: PState, env: Env)
    requires Inv(s) && |s.queue| > 0 && Known(s, s.queue[0]) && env.c !in s.conns
    ensures Inv(PopMessage(kind, s, env))
  {
    var s0 := s.(queue := s.queue[1..]);
    match s.queue[0]
    case StopAccepting => PopStopInv(kind, s, env);
    case CloseWait(c) => PopCloseWaitInv(kind, s, env, c);
    case Create(c) =>
      PopQuietInv(s);
      CreatedInv(kind, s0, env, c);
    case Close(c) =>
      PopQuietInv(s);
      CloseInv(s0, c);
    case External(c, event) =>
      PopQuietInv(s);
      match event {
        case FdAccept => AcceptInv(s0, env);
        case FdConnect => EstablishedInv(s0, c, env.recvOk);
        case FdClose => CloseInv(s0, c);
      }
  }

  // ---------- clients ----------

  lemma PostCounts(s: PState, s': PState, m: PMsg, x: PMsg)
    requires s'.queue == s.queue + [m]
    ensures InQueue(s', x) == InQueue(s, x) + if x == m then 1 else 0
  {
  }

  lemma PostKnown(s: PState, s': PState, m: PMsg)
    requires QueueOk(s) && s'.queue == s.queue + [m] && Known(s', m)
    requires forall c :: c in s.conns ==> c in s'.conns
    ensures QueueOk(s')
  {
    forall i | 0 <= i < |s'.queue|
      ensures Known(s', s'.queue[i])
    {
      if i < |s.queue| {
        assert Known(s, s.queue[i]);
      }
    }
  }

  /** A message about connection `c`, which changed with it. */
  lemma PostAboutConn(s: PState, s': PState, c: ConnId, m: PMsg)
    requires Inv(s) && c in s'.conns && s'.conns == s.conns[c := s'.conns[c]] && s'.recvs == s.recvs
    requires s'.queue == s.queue + [m] && Known(s', m) && m != StopAccepting && (m.CloseWait? ==> m.c == c)
    requires s'.accepted == s.accepted && s'.stopSem == s.stopSem && s'.stoppers == s.stoppers && s'.returned == s.returned
    requires ConnOk(s', c) && RecvOk(s', c)
    ensures Inv(s')
  {
    PostKnown(s, s', m);
    PostCounts(s, s', m, StopAccepting);
    forall d | d != c
      ensures InQueue(s', CloseWait(d)) == InQueue(s, CloseWait(d))
    {
      PostCounts(s, s', m, CloseWait(d));
    }
    OneConn(s, s', c);
  }

  /** A message, and nothing else that connections depend on. */
  lemma PostOnly(s: PState, s': PState, m: PMsg)
    requires Inv(s) && s'.conns == s.conns && s'.recvs == s.recvs && s'.queue == s.queue + [m] && Known(s', m)
    requires !m.CloseWait? && StopOk(s')
    ensures Inv(s')
  {
    PostKnown(s, s', m);
    forall d | d in s'.conns
      ensures ConnOk(s', d)
    {
      assert ConnOk(s, d);
      PostCounts(s, s', m, CloseWait(d));
    }
    forall d | d in s'.recvs
      ensures RecvOk(s', d)
    {
      assert RecvOk(s, d);
    }
  }

  lemma BystanderInv(s: PState, s': PState)
    requires Inv(s) && StopOk(s')
    requires s' == s.(running := s'.running, stopSem := s'.stopSem, stoppers := s'.stoppers, returned := s'.returned)
    ensures Inv(s')
  {
    forall i | 0 <= i < |s'.queue|
      ensures Known(s', s'.queue[i])
    {
      assert Known(s, s.queue[i]);
    }
    forall d | d in s'.conns
      ensures ConnOk(s', d)
    {
      assert ConnOk(s, d);
    }
    forall d | d in s'.recvs
      ensures RecvOk(s', d)
    {
      assert RecvOk(s, d);
    }
  }

  lemma ConnectInv(kind: Kind, s: PState, c: ConnId, read: bool)
    requires Inv(s) && c !in s.conns
    ensures Inv(Next(kind, s, ClientConnects(c, read)))
  {
    var s' := Next(kind, s, ClientConnects(c, read));
    Unheard(s, c);
    FreshIsConsistent(read);
    PostCounts(s, s', Create(c), CloseWait(c));
    PostAboutConn(s, s', c, Create(c));
  }

  lemma CloseWaitInv(kind: Kind, s: PState, c: ConnId)
    requires Inv(s) && c in s.conns
    ensures Inv(Next(kind, s, ClientClosesAndWaits(c)))
  {
    var s' := Next(kind, s, ClientClosesAndWaits(c));
    assert ConnOk(s, c) && (c in s.recvs ==> RecvOk(s, c));
    PostCounts(s, s', CloseWait(c), CloseWait(c));
    PostAboutConn(s, s', c, CloseWait(c));
  }

  lemma ResumeInv(kind: Kind, s: PState, c: ConnId)
    requires Inv(s) && Enabled(kind, s, ClientResumes(c))
    ensures Inv(Next(kind, s, ClientResumes(c)))
  {
    assert ConnOk(s, c) && (c in s.recvs ==> RecvOk(s, c));
    OneConnOnly(s, Next(kind, s, ClientResumes(c)), c);
  }

  lemma ClientInv(kind: Kind, s: PState, a: PAction)
    requires Inv(s) && Enabled(kind, s, a)
    requires a.ClientConnects? || a.ClientCloses? || a.ClientClosesAndWaits? || a.ClientResumes?
          || a.ClientStopsAccepting? || a.ClientStopReturns? || a.ThreadEnds? || a.SocketReports?
    ensures Inv(Next(kind, s, a))
  {
    var s' := Next(kind, s, a);
    match a
    case ClientConnects(c, read) => ConnectInv(kind, s, c, read);
    case ClientCloses(c) =>
      PostCounts(s, s', Close(c), StopAccepting);
      PostOnly(s, s', Close(c));
    case ClientClosesAndWaits(c) => CloseWaitInv(kind, s, c);
    case ClientResumes(c) => ResumeInv(kind, s, c);
    case ClientStopsAccepting =>
      PostCounts(s, s', StopAccepting, StopAccepting);
      PostOnly(s, s', StopAccepting);
    case ClientStopReturns => BystanderInv(s, s');
    case SocketReports(c, event) =>
      PostCounts(s, s', External(c, event), StopAccepting);
      PostOnly(s, s', External(c, event));
    case ThreadEnds => BystanderInv(s, s');
  }

  lemma StepInv(kind: Kind, s: PState, a: PAction)
    requires Inv(s) && Enabled(kind, s, a)
    ensures Inv(Next(kind, s, a))
  {
    if a.HandlesMessage? {
      PopMessageInv(kind, s, a.env);
    } else if a.ConnectCompletes? {
      EstablishedInv(s, a.c, a.recvOk);
    } else if a.AcceptCompletes? {
      AcceptInv(s, a.env);
      BystanderInv(AcceptConnection(s, a.env), AcceptConnection(s, a.env).(running := false));
    } else if a.RecvCompletes? {
      RecvInv(s, a.c, a.got, a.again);
    } else if a.PortCloses? {
      CloseInv(s, a.c);
    } else {
      ClientInv(kind, s, a);
    }
  }

  lemma {:induction false} RunInv(kind: Kind, s: PState, run: seq<PAction>)
    requires Inv(s) && ValidRun(kind, s, run)
    ensures Inv(After(kind, s, run))
    decreases |run|
  {
    if |run| > 0 {
      StepInv(kind, s, run[0]);
      RunInv(kind, Next(kind, s, run[0]), run[1..]);
    }
  }

  // ---------- calls are only added ----------

  ghost predicate Follows(s: PState, s': PState)
  {
    && (forall c :: c in s.conns ==> c in s'.conns && Later(s.conns[c].cbs, s'.conns[c].cbs))
    && (!s.accepted ==> !s'.accepted && s'.acceptCalls == s.acceptCalls)
    && s.returned <= s'.returned
  }

  lemma FollowsTransitive(a: PState, b: PState, c: PState)
    requires Follows(a, b) && Follows(b, c)
    ensures Follows(a, c)
  {
    forall d | d in a.conns
      ensures d in c.conns && Later(a.conns[d].cbs, c.conns[d].cbs)
    {
      LaterIsTransitive(a.conns[d].cbs, b.conns[d].cbs, c.conns[d].cbs);
    }
  }

  lemma OneConnFollows(s: PState, s': PState, c: ConnId)
    requires c in s'.conns && s'.conns == s.conns[c := s'.conns[c]]
    requires c in s.conns ==> Later(s.conns[c].cbs, s'.conns[c].cbs)
    requires !s.accepted ==> !s'.accepted && s'.acceptCalls == s.acceptCalls
    requires s.returned <= s'.returned
    ensures Follows(s, s')
  {
  }

  lemma CloseFollows(s: PState, c: ConnId)
    requires Inv(s) && c in s.conns
    ensures Follows(s, CloseConnection(s, c))
  {
    assert ConnOk(s, c);
    ShutIsConsistent(s.conns[c].cbs);
    OneConnFollows(s, CloseConnection(s, c), c);
  }

  lemma ActivatedFollows(s: PState, c: ConnId, recvOk: bool)
    requires Inv(s) && c in s.conns
    ensures Follows(s, Activated(s, c, recvOk))
  {
    if !recvOk {
      CloseFollows(s, c);
    }
  }

  lemma EstablishedFollows(s: PState, c: ConnId, recvOk: bool)
    requires Inv(s) && c in s.conns
    ensures Follows(s, ConnectionEstablished(s, c, recvOk))
  {
    assert ConnOk(s, c) && (c in s.recvs ==> RecvOk(s, c));
    var k := s.conns[c];
    if k.cbs.connected {
      var s1 := WithConn(s, c, k.(cbs := Established(k.cbs)));
      EstablishedIsConsistent(k.cbs);
      OneConnOnly(s, s1, c);
      OneConnFollows(s, s1, c);
      ActivatedFollows(s1, c, recvOk);
      FollowsTransitive(s, s1, Activated(s1, c, recvOk));
    }
  }

  lemma AcceptFollows(s: PState, env: Env)
    requires Inv(s) && env.c !in s.conns
    ensures Follows(s, AcceptConnection(s, env))
  {
    if s.accepted {
      OneConnFollows(s, AcceptConnection(s, env), env.c);
    }
  }

  lemma RecvFollows(s: PState, c: ConnId, got: Transfer, again: bool)
    requires Inv(s) && c in s.conns && c in s.recvs
    ensures Follows(s, RecvComplete(s, c, got, again))
  {
    assert ConnOk(s, c) && RecvOk(s, c);
    var k := s.conns[c].cbs;
    RecvShape(s, c, got, again);
    RecvConsistent(k, if got == Nothing then k else Received(k));
    OneConnFollows(s, RecvComplete(s, c, got, again), c);
  }

  lemma HandleFollows(kind: Kind, s: PState, m: PMsg, env: Env)
    requires Known(s, m) && env.c !in s.conns && Inv(s)
    ensures Follows(s, Handle(kind, s, m, env))
  {
    match m
    case StopAccepting =>
    case Create(c) =>
    case Close(c) => CloseFollows(s, c);
    case CloseWait(c) => CloseFollows(s, c);
    case External(c, event) =>
      match event {
        case FdAccept => AcceptFollows(s, env);
        case FdConnect => EstablishedFollows(s, c, env.recvOk);
        case FdClose => CloseFollows(s, c);
      }
  }

  lemma PopCloseWaitFollows(kind: Kind, s: PState, env: Env, c: ConnId)
    requires |s.queue| > 0 && s.queue[0] == CloseWait(c) && c in s.conns && Consistent(s.conns[c].cbs)
    ensures Follows(s, PopMessage(kind, s, env))
  {
    ShutIsConsistent(s.conns[c].cbs);
    OneConnFollows(s, PopMessage(kind, s, env), c);
  }

  lemma PopFollows(kind: Kind, s: PState, env: Env)
    requires Inv(s) && |s.queue| > 0 && Known(s, s.queue[0]) && env.c !in s.conns
    ensures Follows(s, PopMessage(kind, s, env))
  {
    if s.queue[0].CloseWait? {
      assert ConnOk(s, s.queue[0].c);
      PopCloseWaitFollows(kind, s, env, s.queue[0].c);
    } else if !s.queue[0].StopAccepting? {
      PopQuietInv(s);
      HandleFollows(kind, s.(queue := s.queue[1..]), s.queue[0], env);
    }
  }

  lemma ClientFollows(kind: Kind, s: PState, a: PAction)
    requires Enabled(kind, s, a)
    requires a.ClientConnects? || a.ClientCloses? || a.ClientClosesAndWaits? || a.ClientResumes?
          || a.ClientStopsAccepting? || a.ClientStopReturns? || a.ThreadEnds? || a.SocketReports?
    ensures Follows(s, Next(kind, s, a))
  {
  }

  lemma StepFollows(kind: Kind, s: PState, a: PAction)
    requires Inv(s) && Enabled(kind, s, a)
    ensures Follows(s, Next(kind, s, a))
  {
    if a.HandlesMessage? {
      PopFollows(kind, s, a.env);
    } else if a.ConnectCompletes? {
      EstablishedFollows(s, a.c, a.recvOk);
    } else if a.AcceptCompletes? {
      AcceptFollows(s, a.env);
    } else if a.RecvCompletes? {
      RecvFollows(s, a.c, a.got, a.again);
    } else if a.PortCloses? {
      CloseFollows(s, a.c);
    } else {
      ClientFollows(kind, s, a);
    }
  }

  lemma {:induction false} RunFollows(kind: Kind, s: PState, run: seq<PAction>)
    requires Inv(s) && ValidRun(kind, s, run)
    ensures Follows(s, After(kind, s, run))
    decreases |run|
  {
    if |run| > 0 {
      var s1 := Next(kind, s, run[0]);
      StepInv(kind, s, run[0]);
      StepFollows(kind, s, run[0]);
      RunFollows(kind, s1, run[1..]);
      FollowsTransitive(s, s1, After(kind, s1, run[1..]));
    }
  }

  // ---------- what clients may rely on ----------

  /** `s` is where a run from the dispatcher's start has come. */
  ghost predicate Reached(kind: Kind, s: PState, run: seq<PAction>)
  {
    ValidRun(kind, START, run) && s == After(kind, START, run)
  }

  lemma ReachedInv(kind: Kind, s: PState, run: seq<PAction>)
    requires Reached(kind, s, run)
    ensures Inv(s)
  {
    StartInv();
    RunInv(kind, START, run);
  }

  /** Every connection's calls are a prefix of the promised ones, whatever the port and the sockets report. */
  lemma CallbacksKeepTheProtocol(kind: Kind, s: PState, run: seq<PAction>, c: ConnId)
    requires Reached(kind, s, run) && c in s.conns
    ensures InLanguage(s.conns[c].cbs.trace)
    ensures s.conns[c].cbs.state == CsWait4Connect <==> s.conns[c].cbs.trace == []
    ensures s.conns[c].cbs.state == CsConnected <==> Talking(s.conns[c].cbs.trace)
    ensures s.conns[c].cbs.state == CsClosed <==> Over(s.conns[c].cbs.trace)
  {
    ReachedInv(kind, s, run);
    assert ConnOk(s, c);
    AutomatonIsLanguage(s.conns[c].cbs.trace);
  }

  /** A thread gets past `close_conn_wait` only after the closing, and once the queue is drained every one can. */
  lemma WaitersAreResumed(kind: Kind, s: PState, run: seq<PAction>, c: ConnId)
    requires Reached(kind, s, run) && c in s.conns
    ensures s.conns[c].closeSem > 0 ==> s.conns[c].cbs.state == CsClosed && Over(s.conns[c].cbs.trace)
    ensures s.queue == [] ==> s.conns[c].closeSem == s.conns[c].waiters
  {
    ReachedInv(kind, s, run);
    assert ConnOk(s, c);
    AutomatonIsLanguage(s.conns[c].cbs.trace);
  }

  /** Once a `stop_accepting` has returned, no later step of any run calls `accepted`. */
  lemma StopAcceptingIsForGood(kind: Kind, s: PState, before: seq<PAction>, after: seq<PAction>)
    requires Reached(kind, s, before) && s.returned > 0 && ValidRun(kind, s, after)
    ensures After(kind, s, after).acceptCalls == s.acceptCalls && !After(kind, s, after).accepted
  {
    ReachedInv(kind, s, before);
    RunFollows(kind, s, after);
  }

  /** Nobody inside `stop_accepting` is forgotten: it has a message on its way or a post to take. */
  lemma StoppersAreResumed(kind: Kind, s: PState, run: seq<PAction>)
    requires Reached(kind, s, run)
    ensures s.stoppers == InQueue(s, StopAccepting) + s.stopSem
    ensures s.stopSem > 0 ==> !s.accepted
  {
    ReachedInv(kind, s, run);
  }

  /** From any reachable state on, calls are only added and no state goes back. */
  lemma CallbacksOnlyMoveForward(kind: Kind, s: PState, before: seq<PAction>, after: seq<PAction>, c: ConnId)
    requires Reached(kind, s, before) && c in s.conns && ValidRun(kind, s, after)
    ensures c in After(kind, s, after).conns && Later(s.conns[c].cbs, After(kind, s, after).conns[c].cbs)
  {
    ReachedInv(kind, s, before);
    RunFollows(kind, s, after);
  }
}

/** Runs of the Linux dispatcher: clients, the kernel and the dispatcher thread take turns. */
module DispatcherSteps {
  import opened Bandwidth
  import opened CallbackProtocol
  import opened Clock
  import opened DispatcherState
  import opened FloatModel
  import opened Ids

  // ---------- walks over the pending lists ----------

  /** From the i-th request on: stops after the first one that is done. */
  function SendList(s: State, c: ConnId, i: nat, guess: Option<uint32>, w: World): (s': State)
    ensures SameKeys(s, s')
    decreases if c in s.outgoings then |s.outgoings[c]| - i else 0
  {
    if !Listed(s, c, i) then s
    else
      var out := Attempt(s, c, i, guess, w);
      if out.done then out.s
      else
        SendList(out.s, c, i + 1, out.guess, w)
  }

  function GuessFor(s: State, c: ConnId, limited: bool): Option<uint32>
  {
    if limited then Some(Guess(s.bws, c)) else None
  }

  /** Every connection in turn; the guess is loaded once per connection. */
  function SendAll(s: State, order: seq<ConnId>, limited: bool, w: World): (s': State)
    ensures SameKeys(s, s')
    decreases |order|
  {
    if |order| == 0 then s
    else SendAll(SendList(s, order[0], 0, GuessFor(s, order[0], limited), w), order[1..], limited, w)
  }

  /** The order in which an idle turn visits the lists, and what happens outside meanwhile. */
  datatype Tour = Tour(order: seq<ConnId>, first: World, second: World)

  /** The walk with the limiter's guesses, unless the window already exceeds the limit. */
  ghost function LimitedTurn(s: State, tour: Tour, fpu: Fpu): State
  {
    if s.bws.maxBw == 0 then SendAll(s, tour.order, true, tour.second)
    else
      var s' := s.(bws := Recalculated(s.bws, OfMs(s.now), fpu));
      if s'.bws.curBw > s'.bws.maxBw then s' else SendAll(s', tour.order, true, tour.second)
  }

  /** An idle turn: without a limit everybody first sends freely; then everybody sends what the limiter grants. */
  ghost function Idle(s: State, tour: Tour, fpu: Fpu): State
  {
    LimitedTurn(if s.bws.maxBw == 0 then SendAll(s, tour.order, false, tour.first) else s, tour, fpu)
  }

  // ---------- network events ----------

  datatype NetEvent = NetEvent(c: ConnId, close: bool, write: bool, read: bool, res: RecvResult, w: World)

  /** Reporting writability consumes the edge. */
  function Delivered(s: State, c: ConnId, write: bool): State
    requires c in s.conns
  {
    if write then WithConn(s, c, s.conns[c].(sock := s.conns[c].sock.(edge := false))) else s
  }

  function WriteEvent(s: State, c: ConnId, w: World): (s': State)
    requires c in s.conns
    ensures SameKeys(s, s')
  {
    if s.conns[c].cbs.connected then ConnectionEstablished(s, c)
    else
      var s1 := s.(bws := Switched(s.bws, c, true));
      if s1.bws.maxBw == 0 then SendList(s1, c, 0, None, w) else s1
  }

  function Event(s: State, e: NetEvent): State
    requires e.c in s.conns
  {
    var s0 := Delivered(s, e.c, e.write);
    if e.close then CloseConnection(s0, e.c)
    else
      var s1 := if e.write then WriteEvent(s0, e.c, e.w) else s0;
      if e.read then RecvEvent(s1, e.c, e.res) else s1
  }

  // ---------- one step ----------

  datatype Action =
    // clients
    | ClientMakes(c: ConnId)
    | ClientDials(c: ConnId, read: bool, ok: bool)
    | ClientConnects(c: ConnId, read: bool)
    | ClientCounts
    | ClientCloses(c: ConnId)
    | ClientClosesAndWaits(c: ConnId)
    | ClientResumes(c: ConnId)
    | ClientAddrefs(c: ConnId)
    | ClientReleases(c: ConnId)
    | ClientSends(r: ReqId, c: ConnId, data: Payload, cb: bool)
    | ClientReleasesReq(r: ReqId)
    | ClientBreaks(r: ReqId)
    | ClientStopsAccepting
    | ClientSetsLimit(bytes: uint32)
    // the clock and the kernel
    | TimePasses(ms: nat)
    | RoomGrows(c: ConnId, n: nat)
    | SocketBreaks(c: ConnId)
    // the dispatcher thread
    | HandlesMessage
    | HandlesEvent(e: NetEvent)
    | HandlesListener(news: seq<Newcomer>)
    | Idles(tour: Tour, fpu: Fpu)

  /** What a client may do with a connection it holds. */
  ghost predicate Held(s: State, c: ConnId)
  {
    c in s.conns && s.conns[c].clientRefs > 0
  }

  ghost predicate FreshNewcomers(s: State, news: seq<Newcomer>)
  {
    && (forall i :: 0 <= i < |news| ==> news[i].c !in s.conns)
    && (forall i, j :: 0 <= i < j < |news| ==> news[i].c != news[j].c)
  }

  /** The order lists every connection with a pending list once. */
  ghost predicate Visits(s: State, order: seq<ConnId>)
  {
    && (forall c :: c in order <==> c in s.outgoings)
    && (forall i, j :: 0 <= i < j < |order| ==> order[i] != order[j])
  }

  ghost predicate Enabled(s: State, a: Action)
  {
    !s.crashed && match a
    case ClientMakes(c) => c !in s.conns
    case ClientDials(c, _, _) => Held(s, c) && s.conns[c].origin == TwoCall && !s.conns[c].dialled
    case ClientConnects(c, _) => c !in s.conns
    case ClientCounts => s.uncounted > 0
    case ClientCloses(c) => Held(s, c) && s.conns[c].dialled
    case ClientClosesAndWaits(c) => Held(s, c) && s.conns[c].dialled && s.conns[c].clientRefs > s.conns[c].waiters
    case ClientResumes(c) => c in s.conns && s.conns[c].closeSem > 0 && s.conns[c].waiters > 0
    case ClientAddrefs(c) => Held(s, c)
    case ClientReleases(c) => Held(s, c) && s.conns[c].clientRefs > s.conns[c].waiters
    case ClientSends(r, c, _, _) => Held(s, c) && r !in s.reqs
    case ClientReleasesReq(r) => ReqKnown(s, r) && s.reqs[r].clientRef
    case ClientBreaks(r) => ReqKnown(s, r) && s.reqs[r].clientRef
    case ClientStopsAccepting => true
    case ClientSetsLimit(_) => true
    case TimePasses(_) => true
    case RoomGrows(c, _) => c in s.conns
    case SocketBreaks(c) => c in s.conns
    case HandlesMessage => Wf(s) && |s.queue| > 0
    case HandlesEvent(e) => e.c in s.conns && s.conns[e.c].registered && s.conns[e.c].cbs.state != CsClosed
    case HandlesListener(news) => FreshNewcomers(s, news)
    case Idles(tour, fpu) => Visits(s, tour.order) && Sound(fpu)
  }

  ghost function Next(s: State, a: Action): State
    requires Enabled(s, a)
  {
    match a
    case ClientMakes(c) => MakeConn(s, c)
    case ClientDials(c, read, ok) => Dial(s, c, read, ok)
    case ClientConnects(c, read) => Connect(s, c, read)
    case ClientCounts => CountConnect(s)
    case ClientCloses(c) => CloseConn(s, c)
    case ClientClosesAndWaits(c) => CloseConnWait(s, c)
    case ClientResumes(c) => Resume(s, c)
    case ClientAddrefs(c) => Addref(s, c)
    case ClientReleases(c) => Release(s, c)
    case ClientSends(r, c, data, cb) => Send(s, r, c, data, cb)
    case ClientReleasesReq(r) => ReleaseReq(s, r)
    case ClientBreaks(r) => Break(s, r)
    case ClientStopsAccepting => Posted(s, StopAccepting)
    case ClientSetsLimit(bytes) => WithLimit(s, bytes)
    case TimePasses(ms) => s.(now := s.now + ms)
    case RoomGrows(c, n) => WithConn(s, c, s.conns[c].(sock := s.conns[c].sock.Refilled(n)))
    case SocketBreaks(c) => WithConn(s, c, s.conns[c].(sock := s.conns[c].sock.(dead := true)))
    case HandlesMessage => PopMessage(s)
    case HandlesEvent(e) => Event(s, e)
    case HandlesListener(news) => AcceptAll(s, news)
    case Idles(tour, fpu) => Idle(s, tour, fpu)
  }

  // ---------- runs ----------

  ghost predicate ValidRun(s: State, run: seq<Action>)
    decreases |run|
  {
    |run| == 0 || (Enabled(s, run[0]) && ValidRun(Next(s, run[0]), run[1..]))
  }

  ghost function After(s: State, run: seq<Action>): State
    requires ValidRun(s, run)
    decreases |run|
  {
    if |run| == 0 then s else After(Next(s, run[0]), run[1..])
  }
}

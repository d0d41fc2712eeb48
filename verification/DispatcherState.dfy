/** The state of the Linux dispatcher, and what each of its operations does to it. */
module DispatcherState {
  import opened Bandwidth
  import opened CallbackProtocol
  import opened Clock
  import opened FloatModel
  import opened Ids

  datatype Option<+T> = None | Some(value: T)

  type Byte = b: int | 0 <= b < 256

  /** Sizes come as non-negative C++ ints. */
  type Payload = d: seq<Byte> | |d| < 0x8000_0000

  // ---------- objects, kept in a store by address ----------

  /**
   The kernel's side of a connection: how many bytes it takes before it would block, whether a
   writability edge is waiting to be delivered, and whether the socket is broken for good.
   */
  datatype Sock = Sock(room: nat, edge: bool, dead: bool)
  {
    function Refilled(n: nat): Sock
    {
      Sock(room + n, edge || (room == 0 && n > 0), dead)
    }
  }

  /** `size` bytes accepted by a socket at time `t`, with or without a limit in force. */
  datatype Taken = Taken(t: Timeb, size: uint32, limited: bool)

  datatype Origin = OneCall | TwoCall | FromListener

  /**
   A connection object. `refs` reaching 0 destroys it. After `sock` come history variables: how it
   came about, whether `connect` has posted it and the reactor knows it, the references and the
   blocked `close_conn_wait` calls of clients, its requests in the order of the `send` calls and in
   the order the dispatcher took them, the bytes its socket accepted, when it accepted how many of them,
   and the completed requests.
   */
  datatype Conn = Conn(
    cbs: Callbacks,
    refs: int,
    recv: bool,
    closeSem: nat,
    sock: Sock,
    origin: Origin,
    dialled: bool,
    issued: bool,
    registered: bool,
    clientRefs: nat,
    waiters: nat,
    calls: seq<ReqId>,
    order: seq<ReqId>,
    wire: seq<Byte>,
    log: seq<Taken>,
    doneLog: seq<ReqId>)

  datatype Phase = Queued | Pending | Done | Failed | Dropped

  /**
   A send request. The rest is history: `wanted` (`send` passed a callback), `clientRef`, `phase`, `pos`
   (its place among the requests the dispatcher took for the connection), `broken` (a break for it was
   handled) and `reports` (the values given to its callback).
   */
  datatype Req = Req(
    conn: ConnId,
    data: Payload,
    sent: nat,
    sentCb: bool,
    refs: int,
    wanted: bool,
    clientRef: bool,
    phase: Phase,
    pos: nat,
    broken: bool,
    reports: seq<bool>)
  {
    predicate Full()
    {
      sent == |data|
    }

    /** `sent_cb` is called once and forgotten. */
    function Reported(value: bool): Req
    {
      if sentCb then this.(sentCb := false, reports := reports + [value]) else this
    }
  }

  datatype Msg =
    | StopAccepting
    | Create(c: ConnId)
    | Close(c: ConnId)
    | CloseWait(c: ConnId)
    | SendRequest(r: ReqId)
    | BreakSend(r: ReqId)

  /**
   `uncounted` are connects between posting their message and counting their socket. `crashed` is the
   end of the process: the thread has gone through a null pointer.
   */
  datatype State = State(
    queue: seq<Msg>,
    conns: map<ConnId, Conn>,
    reqs: map<ReqId, Req>,
    outgoings: map<ConnId, seq<ReqId>>,
    bws: Bw,
    accepted: bool,
    counter: uint32,
    uncounted: nat,
    now: nat,
    crashed: bool)

  /** There is no limit at first. */
  function InitialState(total: uint32, unset: uint32, now: nat): State
  {
    State([], map[], map[], map[], NewBw(0, total, unset), true, 0, 0, now, false)
  }

  // ---------- every address in use leads to an object ----------

  predicate Known(s: State, m: Msg)
  {
    match m
    case StopAccepting => true
    case Create(c) => c in s.conns
    case Close(c) => c in s.conns
    case CloseWait(c) => c in s.conns
    case SendRequest(r) => r in s.reqs
    case BreakSend(r) => r in s.reqs
  }

  predicate ReqKnown(s: State, r: ReqId)
  {
    r in s.reqs && s.reqs[r].conn in s.conns && s.reqs[r].sent <= |s.reqs[r].data|
  }

  ghost predicate Wf(s: State)
  {
    && (forall i :: 0 <= i < |s.queue| ==> Known(s, s.queue[i]))
    && (forall r :: r in s.reqs ==> ReqKnown(s, r))
    && (forall c :: c in s.outgoings ==> ListKnown(s, c, s.outgoings[c]))
  }

  /** A pending list names distinct requests of its connection that are not finished with. */
  ghost predicate ListKnown(s: State, c: ConnId, list: seq<ReqId>)
  {
    && c in s.conns
    && (forall i :: 0 <= i < |list| ==> list[i] in s.reqs && s.reqs[list[i]].conn == c && s.reqs[list[i]].phase == Pending)
    && (forall i, j :: 0 <= i < j < |list| ==> list[i] != list[j])
  }

  /** No object appears or disappears. */
  predicate SameKeys(s: State, s': State)
  {
    s'.conns.Keys == s.conns.Keys && s'.reqs.Keys == s.reqs.Keys
  }

  // ---------- small updates ----------

  function WithConn(s: State, c: ConnId, k: Conn): State
  {
    s.(conns := s.conns[c := k])
  }

  function WithReq(s: State, r: ReqId, q: Req): State
  {
    s.(reqs := s.reqs[r := q])
  }

  function Posted(s: State, m: Msg): State
  {
    s.(queue := s.queue + [m])
  }

  function Unref(s: State, c: ConnId): (s': State)
    requires c in s.conns
    ensures SameKeys(s, s')
  {
    WithConn(s, c, s.conns[c].(refs := s.conns[c].refs - 1))
  }

  /** The last release destroys the request, and its destructor releases the connection. */
  function UnrefReq(s: State, r: ReqId): (s': State)
    requires ReqKnown(s, r)
    ensures SameKeys(s, s')
  {
    var q := s.reqs[r].(refs := s.reqs[r].refs - 1);
    var s1 := WithReq(s, r, q);
    if q.refs == 0 then Unref(s1, q.conn) else s1
  }

  function Count(b: bool): nat
  {
    if b then 1 else 0
  }

  // ---------- client calls ----------

  function NewConn(cbs: Callbacks, refs: nat, recv: bool, sock: Sock, origin: Origin, issued: bool, registered: bool): Conn
  {
    Conn(cbs, refs, recv, 0, sock, origin, issued, issued, registered, 1, 0, [], [], [], [], [])
  }

  const IDLE_SOCK := Sock(0, false, false)

  function MakeConn(s: State, c: ConnId): State
  {
    WithConn(s, c, NewConn(UNDIALLED, 2, false, IDLE_SOCK, TwoCall, false, false))
  }

  /** The second half of a two-call connect; a `connect` that fails at once leaves the functions set and posts nothing. */
  function Dial(s: State, c: ConnId, read: bool, ok: bool): State
    requires c in s.conns
  {
    var k := s.conns[c].(cbs := Dialled(read), dialled := true);
    if !ok then WithConn(s, c, k)
    else Posted(WithConn(s, c, k.(recv := true, refs := k.refs + 1, issued := true)), Create(c))
  }

  function Connect(s: State, c: ConnId, read: bool): State
  {
    var k := NewConn(Dialled(read), 3, true, IDLE_SOCK, OneCall, true, false);
    Posted(WithConn(s, c, k), Create(c)).(uncounted := s.uncounted + 1)
  }

  function CountConnect(s: State): State
    requires s.uncounted > 0
  {
    s.(counter := Wrap(s.counter + 1), uncounted := s.uncounted - 1)
  }

  function CloseConn(s: State, c: ConnId): State
    requires c in s.conns
  {
    Posted(WithConn(s, c, s.conns[c].(refs := s.conns[c].refs + 1)), Close(c))
  }

  function CloseConnWait(s: State, c: ConnId): State
    requires c in s.conns
  {
    Posted(WithConn(s, c, s.conns[c].(refs := s.conns[c].refs + 1, waiters := s.conns[c].waiters + 1)), CloseWait(c))
  }

  /** `set_bandwidth`. */
  function WithLimit(s: State, bytes: uint32): State
  {
    s.(bws := s.bws.(maxBw := bytes))
  }

  /** A blocked `close_conn_wait` gets past its semaphore. */
  function Resume(s: State, c: ConnId): State
    requires c in s.conns && s.conns[c].closeSem > 0 && s.conns[c].waiters > 0
  {
    WithConn(s, c, s.conns[c].(closeSem := s.conns[c].closeSem - 1, waiters := s.conns[c].waiters - 1))
  }

  function Addref(s: State, c: ConnId): State
    requires c in s.conns
  {
    WithConn(s, c, s.conns[c].(refs := s.conns[c].refs + 1, clientRefs := s.conns[c].clientRefs + 1))
  }

  function Release(s: State, c: ConnId): State
    requires c in s.conns && s.conns[c].clientRefs > 0
  {
    WithConn(s, c, s.conns[c].(refs := s.conns[c].refs - 1, clientRefs := s.conns[c].clientRefs - 1))
  }

  function Send(s: State, r: ReqId, c: ConnId, data: Payload, cb: bool): State
    requires c in s.conns
  {
    var k := s.conns[c];
    var s' := WithConn(s, c, k.(refs := k.refs + 1, calls := k.calls + [r]));
    Posted(WithReq(s', r, Req(c, data, 0, cb, 2, cb, true, Queued, 0, false, [])), SendRequest(r))
  }

  function ReleaseReq(s: State, r: ReqId): State
    requires ReqKnown(s, r)
  {
    UnrefReq(WithReq(s, r, s.reqs[r].(clientRef := false)), r)
  }

  function Break(s: State, r: ReqId): State
    requires r in s.reqs
  {
    Posted(WithReq(s, r, s.reqs[r].(refs := s.reqs[r].refs + 1)), BreakSend(r))
  }

  // ---------- the dispatcher thread: connections ----------

  /**
   `close_connection`: one callback, then the releases of the unfinished connect, of the receive
   buffer (whose destructor releases the connection) and of the dispatcher itself. The buffer is
   released without a look whether there is one.
   */
  function CloseConnection(s: State, c: ConnId): State
    requires c in s.conns
  {
    var k := s.conns[c];
    if k.cbs.state == CsClosed then s
    else
      var k' := k.(cbs := Shut(k.cbs), refs := k.refs - Count(k.cbs.state == CsWait4Connect));
      if !k.recv then WithConn(s, c, k').(bws := Erased(s.bws, c), crashed := true)
      else
        WithConn(s, c, k'.(recv := false, refs := k'.refs - 2))
          .(bws := Erased(s.bws, c), counter := Wrap(s.counter - 1))
  }

  /** `connection_established`, and the release of the reference that waited for it. */
  function ConnectionEstablished(s: State, c: ConnId): State
    requires c in s.conns
  {
    var k := s.conns[c];
    if !k.cbs.connected then s
    else
      WithConn(s, c, k.(cbs := Established(k.cbs), refs := k.refs - 1))
        .(bws := Inserted(s.bws, c, 0, OfMs(s.now)))
  }

  datatype Newcomer = Newcomer(c: ConnId, read: bool, room: nat)

  /** One successful `accept_connection`. */
  function AcceptConnection(s: State, n: Newcomer): State
  {
    if !s.accepted then s
    else
      var k := NewConn(JustAccepted(n.read), 3, true, Sock(n.room, n.room > 0, false), FromListener, true, true);
      WithConn(s, n.c, k).(bws := Inserted(s.bws, n.c, 0, OfMs(s.now)), counter := Wrap(s.counter + 1))
  }

  /** The accept loop, until `accept` would block. */
  function AcceptAll(s: State, news: seq<Newcomer>): State
  {
    if |news| == 0 then s else AcceptConnection(AcceptAll(s, news[..|news| - 1]), news[|news| - 1])
  }

  datatype RecvResult = Got | GotAndThrew | WouldBlock | EndOfStream | RecvError

  /** `do_recv`: its callback, and whether the connection is to stay open. */
  function DoRecv(k: Callbacks, res: RecvResult): (Callbacks, bool)
  {
    if !k.read then (k, false)
    else
      match res
      case Got => (Received(k), true)
      case GotAndThrew => (Received(k), false)
      case WouldBlock => (k, true)
      case EndOfStream => (k, false)
      case RecvError => (k, false)
  }

  function RecvEvent(s: State, c: ConnId, res: RecvResult): State
    requires c in s.conns
  {
    var (cbs, open) := DoRecv(s.conns[c].cbs, res);
    var s' := WithConn(s, c, s.conns[c].(cbs := cbs));
    if open then s' else CloseConnection(s', c)
  }

  // ---------- the dispatcher thread: messages ----------

  function Enlisted(s: State, r: ReqId): State
    requires ReqKnown(s, r)
  {
    var c := s.reqs[r].conn;
    var k := s.conns[c];
    var s' := WithConn(s, c, k.(order := k.order + [r]));
    if k.cbs.state == CsClosed then WithReq(s', r, s.reqs[r].(phase := Dropped, pos := |k.order|))
    else
      var list := if c in s.outgoings then s.outgoings[c] else [];
      WithReq(s', r, s.reqs[r].(phase := Pending, pos := |k.order|)).(outgoings := s.outgoings[c := list + [r]])
  }

  /** `call_false_cb`. */
  function CallFalseCb(s: State, r: ReqId): State
    requires ReqKnown(s, r)
  {
    UnrefReq(WithReq(s, r, s.reqs[r].Reported(false).(broken := true)), r)
  }

  /** A message to close connection `c`. */
  predicate Closes(m: Msg, c: ConnId)
  {
    m == Close(c) || m == CloseWait(c)
  }

  /** What the message switch does with a message it has popped. */
  function Handle(s: State, m: Msg): State
    requires Known(s, m)
    requires m.SendRequest? || m.BreakSend? ==> ReqKnown(s, m.r)
  {
    match m
    case StopAccepting => s.(accepted := false)
    case Create(c) => WithConn(s, c, s.conns[c].(refs := s.conns[c].refs + 1, registered := true))
    case Close(c) =>
      var s1 := CloseConnection(s, c);
      if s1.crashed then s1 else Unref(s1, c)
    case CloseWait(c) =>
      var s1 := CloseConnection(s, c);
      if s1.crashed then s1
      else
        var s' := Unref(s1, c);
        WithConn(s', c, s'.conns[c].(closeSem := s'.conns[c].closeSem + 1))
    case SendRequest(r) => Enlisted(s, r)
    case BreakSend(r) => CallFalseCb(s, r)
  }

  function PopMessage(s: State): State
    requires |s.queue| > 0 && Known(s, s.queue[0])
    requires s.queue[0].SendRequest? || s.queue[0].BreakSend? ==> ReqKnown(s, s.queue[0].r)
  {
    Handle(s.(queue := s.queue[1..]), s.queue[0])
  }

  // ---------- the dispatcher thread: sending ----------

  /**
   What the outside world does during one walk over the pending lists: the time and the room a
   socket gains just before each `send`.
   */
  datatype World = World(refill: ReqId -> nat, tick: ReqId -> nat)

  /** The kernel gives a socket no new room while a walk is under way. */
  ghost predicate Quiet(w: World)
  {
    forall r: ReqId :: w.refill(r) == 0
  }

  datatype SendOut = SendOut(s: State, guess: Option<uint32>, done: bool)

  /** How many bytes `do_send` offers: the rest of the request, capped by the guess. */
  function Offer(q: Req, guess: Option<uint32>): nat
    requires q.sent <= |q.data|
  {
    var rest := |q.data| - q.sent;
    if guess.Some? && rest > guess.value then guess.value else rest
  }

  function WorldTurn(s: State, r: ReqId, w: World): (s': State)
    requires ReqKnown(s, r)
    ensures SameKeys(s, s')
  {
    var k := s.conns[s.reqs[r].conn];
    WithConn(s, s.reqs[r].conn, k.(sock := k.sock.Refilled(w.refill(r)))).(now := s.now + w.tick(r))
  }

  function SwitchedOff(s: State, c: ConnId): (s': State)
    ensures SameKeys(s, s')
  {
    s.(bws := Switched(s.bws, c, false))
  }

  /** A hard error: the request is given up. */
  function SendFailed(s: State, r: ReqId): (s': State)
    requires ReqKnown(s, r)
    ensures SameKeys(s, s')
  {
    var q := s.reqs[r].Reported(false).(phase := Failed);
    UnrefReq(SwitchedOff(WithReq(s, r, q), q.conn), r)
  }

  /** The socket has taken `n` bytes of the request. */
  function BytesTaken(s: State, r: ReqId, n: nat): (s': State)
    requires ReqKnown(s, r) && n <= |s.reqs[r].data| - s.reqs[r].sent
    requires n <= s.conns[s.reqs[r].conn].sock.room
    ensures SameKeys(s, s')
  {
    var q := s.reqs[r];
    var k := s.conns[q.conn];
    var k' := k.(sock := k.sock.(room := k.sock.room - n), wire := k.wire + q.data[q.sent..q.sent + n],
                 log := k.log + [Taken(OfMs(s.now), n, s.bws.maxBw > 0)]);
    WithReq(WithConn(s, q.conn, k'), r, q.(sent := q.sent + n))
      .(bws := Inserted(s.bws, q.conn, n, OfMs(s.now)))
  }

  function Completed(s: State, r: ReqId): (s': State)
    requires ReqKnown(s, r)
    ensures SameKeys(s, s')
  {
    var q := s.reqs[r].Reported(true).(phase := Done);
    var k := s.conns[q.conn];
    UnrefReq(WithReq(WithConn(s, q.conn, k.(doneLog := k.doneLog + [r])), r, q), r)
  }

  function Min(a: nat, b: nat): nat
  {
    if a < b then a else b
  }

  /** What `do_send` makes of `n` bytes taken out of `offer`: it completes the request or waits for more room. */
  function Took(s: State, r: ReqId, n: nat, offer: nat, guess: Option<uint32>): (out: SendOut)
    requires ReqKnown(s, r) && n <= offer <= |s.reqs[r].data| - s.reqs[r].sent
    requires guess.Some? ==> offer <= guess.value
    requires n <= s.conns[s.reqs[r].conn].sock.room
    ensures SameKeys(s, out.s) && out.s.outgoings == s.outgoings
  {
    var done := n == |s.reqs[r].data| - s.reqs[r].sent;
    var s1 := BytesTaken(s, r, n);
    var s2 := if done then Completed(s1, r) else s1;
    SendOut(if n < offer then SwitchedOff(s2, s.reqs[r].conn) else s2,
            if guess.Some? then Some(guess.value - n) else None,
            done)
  }

  /** The kernel's answer to `send` and what `do_send` makes of it. */
  function Answer(s: State, r: ReqId, offer: nat, guess: Option<uint32>): (out: SendOut)
    requires ReqKnown(s, r) && offer <= |s.reqs[r].data| - s.reqs[r].sent
    requires guess.Some? ==> offer <= guess.value
    ensures SameKeys(s, out.s) && out.s.outgoings == s.outgoings
  {
    var sock := s.conns[s.reqs[r].conn].sock;
    if sock.dead then SendOut(SendFailed(s, r), guess, true)
    else if sock.room == 0 then SendOut(SwitchedOff(s, s.reqs[r].conn), guess, false)
    else Took(s, r, Min(offer, sock.room), offer, guess)
  }

  /** `do_send`: true when the request is to leave the pending list. */
  function DoSend(s: State, r: ReqId, guess: Option<uint32>, w: World): (out: SendOut)
    requires ReqKnown(s, r)
    ensures SameKeys(s, out.s) && out.s.outgoings == s.outgoings
  {
    var q := s.reqs[r];
    if s.conns[q.conn].cbs.state == CsClosed then SendOut(WithReq(s, r, q.(phase := Dropped)), guess, true)
    else if Offer(q, guess) == 0 then SendOut(s, guess, false)
    else Answer(WorldTurn(s, r, w), r, Offer(q, guess), guess)
  }

  function Without<T>(list: seq<T>, i: nat): seq<T>
    requires i < |list|
  {
    list[..i] + list[i + 1..]
  }

  /** `do_send` on the i-th pending request of a connection, which is erased when it is done. */
  function Attempt(s: State, c: ConnId, i: nat, guess: Option<uint32>, w: World): (out: SendOut)
    requires Listed(s, c, i)
    ensures SameKeys(s, out.s) && (!out.done ==> out.s.outgoings == s.outgoings)
  {
    var o := DoSend(s, s.outgoings[c][i], guess, w);
    if o.done then o.(s := o.s.(outgoings := s.outgoings[c := Without(s.outgoings[c], i)])) else o
  }

  predicate Listed(s: State, c: ConnId, i: nat)
  {
    c in s.outgoings && i < |s.outgoings[c]| && ReqKnown(s, s.outgoings[c][i])
  }
}

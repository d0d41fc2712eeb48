/** The Linux dispatcher as an object updated in place. */
module Dispatcher {
  import opened Bandwidth
  import opened BandwidthLimiter
  import opened CallbackProtocol
  import opened Clock
  import opened DispatcherInvariant
  import opened DispatcherState
  import opened DispatcherSteps
  import opened EventStepProofs
  import opened FloatModel
  import opened Ids
  import opened MessageQueue
  import opened SendStepProofs
  import opened ThreadStepProofs

  /**
   Connections and requests live in stores by address; `now`, the sockets and `uncounted` belong to the
   world outside, and `crashed` says that the thread has gone through a null pointer.
   */
  class TcpDispatcher {
    const bws: Bwstop
    const imessages: InternalMessages<Msg>
    var conns: map<ConnId, Conn>
    var reqs: map<ReqId, Req>
    var outgoings: map<ConnId, seq<ReqId>>
    var accepted: bool
    var counter: uint32
    var uncounted: nat
    var now: nat
    var crashed: bool

    ghost function Abs(): State
      reads this, bws, imessages
    {
      State(imessages.messages, conns, reqs, outgoings, bws.Abs(), accepted, counter, uncounted, now, crashed)
    }

    /** The limiter starts without a limit. */
    constructor (unset: uint32, time: nat)
      ensures fresh(bws) && fresh(imessages)
      ensures Abs() == Initial(Start(bws.curBw, unset, time)) && Inv(Abs())
    {
      bws := new Bwstop(0, unset);
      imessages := new InternalMessages();
      conns, reqs, outgoings := map[], map[], map[];
      accepted, counter, uncounted, now, crashed := true, 0, 0, time, false;
    }

    // ---------- client calls ----------

    /** The first half of a two-call connect. */
    method MakeConn(c: ConnId)
      requires c !in conns
      modifies `conns
      ensures Abs() == DispatcherState.MakeConn(old(Abs()), c)
    {
      conns := conns[c := NewConn(UNDIALLED, 0, false, IDLE_SOCK, TwoCall, false, false)];
      AddrefConn(c);
      AddrefConn(c);
    }

    /** The second half; `ok` is false when `connect` fails at once. */
    method ConnectMade(c: ConnId, read: bool, ok: bool)
      requires Enabled(Abs(), ClientDials(c, read, ok))
      modifies `conns, imessages
      ensures Abs() == Next(old(Abs()), ClientDials(c, read, ok))
    {
      var conn := conns[c].(cbs := Dialled(read), dialled := true);
      conns := conns[c := conn];
      if !ok {
        return;
      }
      conns := conns[c := conn.(recv := true, refs := conn.refs + 1, issued := true)];
      imessages.Push(Create(c));
    }

    /** A one-call connect; `ok` is false when the system refuses it, and the last statement counts the socket. */
    method Connect(c: ConnId, read: bool, ok: bool) returns (made: Option<ConnId>)
      requires c !in conns
      modifies `conns, `counter, imessages
      ensures made == if ok then Some(c) else None
      ensures Abs() == if ok then CountConnect(DispatcherState.Connect(old(Abs()), c, read)) else old(Abs())
    {
      if !ok {
        return None;
      }
      var conn := NewConn(Dialled(read), 0, false, IDLE_SOCK, OneCall, true, false);
      conn := conn.(refs := conn.refs + 2);
      conn := conn.(recv := true, refs := conn.refs + 1);
      conns := conns[c := conn];
      imessages.Push(Create(c));
      counter := Wrap(counter + 1);
      return Some(c);
    }

    method CloseConn(c: ConnId)
      requires Enabled(Abs(), ClientCloses(c))
      modifies `conns, imessages
      ensures Abs() == Next(old(Abs()), ClientCloses(c))
    {
      AddrefConn(c);
      imessages.Push(Close(c));
    }

    /** `close_conn_wait` up to its semaphore; `Resume` is getting past it. */
    method CloseConnWait(c: ConnId)
      requires Enabled(Abs(), ClientClosesAndWaits(c))
      modifies `conns, imessages
      ensures Abs() == Next(old(Abs()), ClientClosesAndWaits(c))
    {
      AddrefConn(c);
      conns := conns[c := conns[c].(waiters := conns[c].waiters + 1)];
      imessages.Push(CloseWait(c));
    }

    method Resume(c: ConnId)
      requires Enabled(Abs(), ClientResumes(c))
      modifies `conns
      ensures Abs() == Next(old(Abs()), ClientResumes(c))
    {
      conns := conns[c := conns[c].(closeSem := conns[c].closeSem - 1, waiters := conns[c].waiters - 1)];
    }

    method Send(r: ReqId, c: ConnId, data: Payload, cb: bool)
      requires Enabled(Abs(), ClientSends(r, c, data, cb))
      modifies `conns, `reqs, imessages
      ensures Abs() == Next(old(Abs()), ClientSends(r, c, data, cb))
    {
      var conn := conns[c];
      conns := conns[c := conn.(refs := conn.refs + 1, calls := conn.calls + [r])];
      reqs := reqs[r := Req(c, data, 0, cb, 2, cb, true, Queued, 0, false, [])];
      imessages.Push(SendRequest(r));
    }

    method StopAcceptingConnections()
      modifies imessages
      ensures Abs() == Posted(old(Abs()), StopAccepting)
    {
      imessages.Push(StopAccepting);
    }

    method ReleaseSend(r: ReqId)
      requires Enabled(Abs(), ClientReleasesReq(r))
      modifies `conns, `reqs
      ensures Abs() == Next(old(Abs()), ClientReleasesReq(r))
    {
      reqs := reqs[r := reqs[r].(clientRef := false)];
      ReleaseRequest(r);
    }

    /** `break_send` up to its semaphore. */
    method BreakOff(r: ReqId)
      requires Enabled(Abs(), ClientBreaks(r))
      modifies `reqs, imessages
      ensures Abs() == Next(old(Abs()), ClientBreaks(r))
    {
      reqs := reqs[r := reqs[r].(refs := reqs[r].refs + 1)];
      imessages.Push(BreakSend(r));
    }

    method SetBandwidth(bytes: uint32)
      modifies bws
      ensures Abs() == WithLimit(old(Abs()), bytes)
    {
      bws.SetLimit(bytes);
    }

    // ---------- reference counts ----------

    method AddrefConn(c: ConnId)
      requires c in conns
      modifies `conns
      ensures conns == old(conns)[c := old(conns)[c].(refs := old(conns)[c].refs + 1)]
    {
      conns := conns[c := conns[c].(refs := conns[c].refs + 1)];
    }

    method ReleaseConn(c: ConnId)
      requires c in conns
      modifies `conns
      ensures Abs() == Unref(old(Abs()), c)
    {
      conns := conns[c := conns[c].(refs := conns[c].refs - 1)];
    }

    /** The last release runs the destructor, which releases the connection. */
    method ReleaseRequest(r: ReqId)
      requires ReqKnown(Abs(), r)
      modifies `reqs, `conns
      ensures Abs() == UnrefReq(old(Abs()), r)
    {
      reqs := reqs[r := reqs[r].(refs := reqs[r].refs - 1)];
      if reqs[r].refs == 0 {
        ReleaseConn(reqs[r].conn);
      }
    }

    /** The part of every completion that calls `sent_cb` once, and what becomes of the request. */
    method ReportSent(r: ReqId, value: bool, phase: Phase)
      requires r in reqs
      modifies `reqs
      ensures reqs == old(reqs)[r := old(reqs)[r].Reported(value).(phase := phase)]
    {
      var q := reqs[r];
      if q.sentCb {
        q := q.(reports := q.reports + [value]);
        q := q.(sentCb := false);
      }
      reqs := reqs[r := q.(phase := phase)];
    }

    // ---------- do_send ----------

    /** A hard error. */
    method GiveUp(r: ReqId)
      requires ReqKnown(Abs(), r)
      modifies this, bws
      ensures Abs() == SendFailed(old(Abs()), r)
    {
      ghost var q := reqs[r].Reported(false).(phase := Failed);
      bws.Off(reqs[r].conn);
      ReportSent(r, false, Failed);
      assert Abs() == SwitchedOff(WithReq(old(Abs()), r, q), q.conn);
      ReleaseRequest(r);
    }

    /** The socket has taken `n` bytes. */
    method TakeBytes(r: ReqId, n: uint32)
      requires ReqKnown(Abs(), r) && n <= |reqs[r].data| - reqs[r].sent && n <= conns[reqs[r].conn].sock.room
      modifies this, bws
      ensures Abs() == BytesTaken(old(Abs()), r, n)
    {
      var q := reqs[r];
      var k := conns[q.conn];
      conns := conns[q.conn := k.(sock := k.sock.(room := k.sock.room - n), wire := k.wire + q.data[q.sent..q.sent + n],
                                  log := k.log + [Taken(OfMs(now), n, bws.maxBw > 0)])];
      reqs := reqs[r := q.(sent := q.sent + n)];
      bws.Insert(q.conn, n, OfMs(now));
    }

    method Complete(r: ReqId)
      requires ReqKnown(Abs(), r)
      modifies `conns, `reqs
      ensures Abs() == Completed(old(Abs()), r)
    {
      var c := reqs[r].conn;
      conns := conns[c := conns[c].(doneLog := conns[c].doneLog + [r])];
      ReportSent(r, true, Done);
      ghost var s := old(Abs());
      assert Abs() == WithReq(WithConn(s, c, s.conns[c].(doneLog := s.conns[c].doneLog + [r])), r, s.reqs[r].Reported(true).(phase := Done));
      ReleaseRequest(r);
    }

    /** What follows a `send` that was accepted in part or in whole. */
    method AfterSend(r: ReqId, n: uint32, offer: nat, guess: Option<uint32>) returns (done: bool, left: Option<uint32>)
      requires ReqKnown(Abs(), r) && n <= offer <= |reqs[r].data| - reqs[r].sent
      requires guess.Some? ==> offer <= guess.value
      requires n <= conns[reqs[r].conn].sock.room
      modifies this, bws
      ensures SendOut(Abs(), left, done) == Took(old(Abs()), r, n, offer, guess)
    {
      var c := reqs[r].conn;
      left := if guess.Some? then Some(guess.value - n) else None;
      done := n == |reqs[r].data| - reqs[r].sent;
      TakeBytes(r, n);
      if done {
        Complete(r);
      }
      if n < offer {
        bws.Off(c);
      }
    }

    /** One `send` call of the kernel and what is made of its answer. */
    method AskSocket(r: ReqId, offer: nat, guess: Option<uint32>) returns (done: bool, left: Option<uint32>)
      requires ReqKnown(Abs(), r) && offer <= |reqs[r].data| - reqs[r].sent
      requires guess.Some? ==> offer <= guess.value
      modifies this, bws
      ensures SendOut(Abs(), left, done) == Answer(old(Abs()), r, offer, guess)
    {
      var sock := conns[reqs[r].conn].sock;
      left := guess;
      if sock.dead {
        GiveUp(r);
        done := true;
      } else if sock.room == 0 {
        bws.Off(reqs[r].conn);
        done := false;
      } else {
        var n := if offer < sock.room then offer else sock.room;
        done, left := AfterSend(r, n, offer, guess);
      }
    }

    /** `do_send`; `w` is what the world does just before the kernel answers. */
    method DoSend(r: ReqId, guess: Option<uint32>, w: World) returns (done: bool, left: Option<uint32>)
      requires ReqKnown(Abs(), r)
      modifies this, bws
      ensures SendOut(Abs(), left, done) == DispatcherState.DoSend(old(Abs()), r, guess, w)
    {
      var q := reqs[r];
      left := guess;
      if conns[q.conn].cbs.state == CsClosed {
        reqs := reqs[r := q.(phase := Dropped)];
        return true, left;
      }
      var sts: nat := |q.data| - q.sent;
      if guess.Some? && sts > guess.value {
        sts := guess.value;
      }
      if sts == 0 {
        return false, left;
      }
      conns := conns[q.conn := conns[q.conn].(sock := conns[q.conn].sock.Refilled(w.refill(r)))];
      now := now + w.tick(r);
      assert Abs() == WorldTurn(old(Abs()), r, w);
      done, left := AskSocket(r, sts, guess);
      assert sts == Offer(q, guess);
    }

    /** `do_send` on the i-th pending request, which is erased when it is done. */
    method SendOne(c: ConnId, i: nat, guess: Option<uint32>, w: World) returns (done: bool, left: Option<uint32>)
      requires Listed(Abs(), c, i)
      modifies this, bws
      ensures SendOut(Abs(), left, done) == Attempt(old(Abs()), c, i, guess, w)
    {
      done, left := DoSend(outgoings[c][i], guess, w);
      if done {
        outgoings := outgoings[c := Without(outgoings[c], i)];
      }
    }

    /** Walks one pending list; the first request that is done ends the walk. */
    method SendPending(c: ConnId, guess: Option<uint32>, w: World)
      requires Inv(Abs())
      modifies this, bws
      ensures Abs() == SendList(old(Abs()), c, 0, guess, w)
    {
      if c !in outgoings {
        return;
      }
      var i, left, done := 0, guess, false;
      ghost var s := Abs();
      while !done && i < |outgoings[c]|
        invariant s == Abs() && Inv(s)
        invariant !done ==> c in outgoings && SendList(s, c, i, left, w) == SendList(old(Abs()), c, 0, guess, w)
        invariant done ==> s == SendList(old(Abs()), c, 0, guess, w)
        decreases !done, if c in outgoings then |outgoings[c]| - i else 0
      {
        AttemptIsPossible(s, c, i, left, w);
        WalkStep(s, c, i, left, w);
        done, left := SendOne(c, i, left, w);
        s := Abs();
        i := i + 1;
      }
    }

    /** Walks every pending list in the order of the map, loading each connection's guess once. */
    method SendToAll(order: seq<ConnId>, limited: bool, w: World)
      requires Inv(Abs())
      modifies this, bws
      ensures Abs() == SendAll(old(Abs()), order, limited, w)
    {
      var i := 0;
      assert order[0..] == order;
      while i < |order|
        invariant i <= |order| && Inv(Abs())
        invariant SendAll(Abs(), order[i..], limited, w) == SendAll(old(Abs()), order, limited, w)
      {
        var guess := None;
        if limited {
          var g := bws.GuessOf(order[i]);
          guess := Some(g);
        }
        SendListInv(Abs(), order[i], 0, guess, w);
        NextList(Abs(), order, i, limited, w);
        SendPending(order[i], guess, w);
        i := i + 1;
      }
    }

    /** What the thread does when no event has come: everybody sends freely, or what the limiter grants. */
    method IdleTurn(tour: Tour, fpu: Fpu)
      requires Inv(Abs()) && Visits(Abs(), tour.order) && Sound(fpu)
      modifies this, bws
      ensures Abs() == Idle(old(Abs()), tour, fpu) && Inv(Abs())
    {
      IdleInv(Abs(), tour, fpu);
      if bws.maxBw == 0 {
        SendAllInv(Abs(), tour.order, false, tour.first);
        SendToAll(tour.order, false, tour.first);
      }
      ghost var s := Abs();
      ClientStepProofs.BystanderInv(s, s.(bws := Recalculated(s.bws, OfMs(s.now), fpu)));
      var exceeded := bws.Recalc(OfMs(now), fpu);
      if !exceeded {
        SendToAll(tour.order, true, tour.second);
      }
    }

    // ---------- connections ----------

    /** The last callback, by state; `open` is false when it has been called before. */
    method CallLast(c: ConnId) returns (open: bool)
      requires c in conns
      modifies `conns
      ensures open == (old(conns)[c].cbs.state != CsClosed)
      ensures var k := old(conns)[c];
              conns == old(conns)[c := k.(cbs := Shut(k.cbs), refs := k.refs - Count(k.cbs.state == CsWait4Connect))]
    {
      var k := conns[c];
      var trace := k.cbs.trace;
      open := true;
      match k.cbs.state {
        case CsWait4Connect =>
          k := k.(cbs := Callbacks(CsClosed, false, false, false, trace + [CallRefused]), refs := k.refs - 1);
        case CsConnected =>
          k := k.(cbs := Callbacks(CsClosed, false, false, false, trace + [CallClosed]));
        case CsClosed =>
          open := false;
      }
      conns := conns[c := k];
    }

    /** `close_connection`: nothing for a closed connection, else one callback and the releases; a missing buffer ends the process. */
    method CloseConnection(c: ConnId)
      requires c in conns
      modifies this, bws
      ensures Abs() == DispatcherState.CloseConnection(old(Abs()), c)
    {
      var open := CallLast(c);
      if !open {
        return;
      }
      bws.Erase(c);
      if !conns[c].recv {
        crashed := true;
        return;
      }
      ReleaseBuffer(c);
    }

    /** The last releases of `close_connection`: the buffer's reference, the dispatcher's own, the count. */
    method ReleaseBuffer(c: ConnId)
      requires c in conns
      modifies `conns, `counter
      ensures var k := old(conns)[c];
              conns == old(conns)[c := k.(recv := false, refs := k.refs - 2)] && counter == Wrap(old(counter) - 1)
    {
      conns := conns[c := conns[c].(recv := false, refs := conns[c].refs - 1)];
      ReleaseConn(c);
      counter := Wrap(counter - 1);
    }

    /** `connection_established` and the release that follows it. */
    method ConnectionEstablished(c: ConnId)
      requires c in conns && conns[c].cbs.connected
      modifies this, bws
      ensures Abs() == DispatcherState.ConnectionEstablished(old(Abs()), c)
    {
      var cbs := conns[c].cbs;
      cbs := cbs.(trace := cbs.trace + [CallConnected]);
      cbs := cbs.(connected := false);
      cbs := cbs.(state := CsConnected);
      conns := conns[c := conns[c].(cbs := cbs, refs := conns[c].refs - 1)];
      bws.Insert(c, 0, OfMs(now));
    }

    /** `accept_connection`, once `accept` has returned a socket. */
    method AcceptConnection(n: Newcomer) returns (more: bool)
      modifies this, bws
      ensures Abs() == DispatcherState.AcceptConnection(old(Abs()), n)
      ensures more == old(accepted) && accepted == old(accepted)
    {
      if !accepted {
        return false;
      }
      conns := conns[n.c := NewConn(JustAccepted(n.read), 3, true, Sock(n.room, n.room > 0, false), FromListener, true, true)];
      bws.Insert(n.c, 0, OfMs(now));
      counter := Wrap(counter + 1);
      more := true;
    }

    /** Accepts until nobody is left or accepting has been stopped. */
    method HandleListener(news: seq<Newcomer>)
      requires Inv(Abs()) && FreshNewcomers(Abs(), news)
      modifies this, bws
      ensures Abs() == AcceptAll(old(Abs()), news) && Inv(Abs())
    {
      AcceptAllInv(Abs(), news);
      AcceptLoop(news);
    }

    method AcceptLoop(news: seq<Newcomer>)
      modifies this, bws
      ensures Abs() == AcceptAll(old(Abs()), news)
    {
      var i, more := 0, true;
      assert news[..0] == [];
      while more && i < |news|
        invariant i <= |news| && (!more ==> !accepted)
        invariant Abs() == AcceptAll(old(Abs()), news[..i])
        decreases |news| - i
      {
        assert news[..i + 1][..i] == news[..i];
        more := AcceptConnection(news[i]);
        i := i + 1;
      }
      assert news[..|news|] == news;
      if !more {
        NobodyElse(old(Abs()), news, i);
      }
    }

    /** `do_recv`: the bytes received, or 0 when the connection is to be closed. */
    method DoRecv(c: ConnId, res: RecvResult) returns (open: bool)
      requires c in conns
      modifies `conns
      ensures conns == old(conns)[c := old(conns)[c].(cbs := DispatcherState.DoRecv(old(conns)[c].cbs, res).0)]
      ensures open == DispatcherState.DoRecv(old(conns)[c].cbs, res).1
    {
      var cbs := conns[c].cbs;
      open := false;
      if cbs.read {
        open := res == Got || res == GotAndThrew || res == WouldBlock;
        if res == Got || res == GotAndThrew {
          cbs := cbs.(trace := cbs.trace + [CallRead]);
        }
        if res == GotAndThrew {
          open := false;
        }
      }
      conns := conns[c := conns[c].(cbs := cbs)];
    }

    /** Writability: the end of a connect, or room to send. */
    method HandleWrite(c: ConnId, w: World)
      requires Inv(Abs()) && c in conns
      modifies this, bws
      ensures Abs() == WriteEvent(old(Abs()), c, w)
    {
      if conns[c].cbs.connected {
        ConnectionEstablished(c);
      } else {
        ClientStepProofs.BystanderInv(Abs(), Abs().(bws := Switched(Abs().bws, c, true)));
        bws.On(c);
        if bws.maxBw == 0 {
          SendPending(c, None, w);
        }
      }
    }

    method HandleRead(c: ConnId, res: RecvResult)
      requires c in conns
      modifies this, bws
      ensures Abs() == RecvEvent(old(Abs()), c, res)
    {
      var open := DoRecv(c, res);
      if !open {
        CloseConnection(c);
      }
    }

    /** What an event asks for, once the reactor has delivered it. */
    method React(e: NetEvent)
      requires Inv(Abs()) && e.c in conns
      modifies this, bws
      ensures e.close ==> Abs() == DispatcherState.CloseConnection(old(Abs()), e.c)
      ensures !e.close ==> var s := if e.write then WriteEvent(old(Abs()), e.c, e.w) else old(Abs());
                           Abs() == if e.read then RecvEvent(s, e.c, e.res) else s
    {
      if e.close {
        CloseConnection(e.c);
        return;
      }
      if e.write {
        HandleWrite(e.c, e.w);
      }
      if e.read {
        HandleRead(e.c, e.res);
      }
    }

    /** The reactor consumes the edge it reports. */
    method Deliver(c: ConnId, write: bool)
      requires c in conns
      modifies `conns
      ensures Abs() == Delivered(old(Abs()), c, write)
    {
      if write {
        conns := conns[c := conns[c].(sock := conns[c].sock.(edge := false))];
      }
    }

    /** One event of the reactor. */
    method HandleEvent(e: NetEvent)
      requires Inv(Abs()) && Enabled(Abs(), HandlesEvent(e))
      modifies this, bws
      ensures Abs() == Event(old(Abs()), e)
      ensures Inv(Abs()) <==> !EarlyData(old(Abs()), e)
    {
      EventIsPossible(Abs(), e);
      Deliver(e.c, e.write);
      React(e);
    }

    // ---------- messages ----------

    method CallFalseCb(r: ReqId)
      requires ReqKnown(Abs(), r)
      modifies `conns, `reqs
      ensures Abs() == DispatcherState.CallFalseCb(old(Abs()), r)
    {
      ReportSent(r, false, reqs[r].phase);
      reqs := reqs[r := reqs[r].(broken := true)];
      ghost var s := old(Abs());
      assert Abs() == WithReq(s, r, s.reqs[r].Reported(false).(broken := true));
      ReleaseRequest(r);
    }

    /** A request taken from the queue goes to the end of its connection's list, unless that is closed. */
    method Enlist(r: ReqId)
      requires ReqKnown(Abs(), r)
      modifies `conns, `reqs, `outgoings
      ensures Abs() == Enlisted(old(Abs()), r)
    {
      var c := reqs[r].conn;
      var phase := Dropped;
      if conns[c].cbs.state != CsClosed {
        var sendings := [];
        if c in outgoings {
          sendings := outgoings[c];
        }
        outgoings := outgoings[c := sendings + [r]];
        phase := Pending;
      }
      reqs := reqs[r := reqs[r].(phase := phase, pos := |conns[c].order|)];
      conns := conns[c := conns[c].(order := conns[c].order + [r])];
    }

    /** The message switch. */
    method Dispatch(m: Msg)
      requires Known(Abs(), m) && (m.SendRequest? || m.BreakSend? ==> ReqKnown(Abs(), m.r))
      modifies this, bws
      ensures Abs() == Handle(old(Abs()), m)
    {
      match m
      case StopAccepting => accepted := false;
      case Create(c) =>
        AddrefConn(c);
        conns := conns[c := conns[c].(registered := true)];
      case Close(c) =>
        CloseConnection(c);
        if !crashed {
          ReleaseConn(c);
        }
      case CloseWait(c) =>
        CloseConnection(c);
        if crashed {
          return;
        }
        ReleaseConn(c);
        conns := conns[c := conns[c].(closeSem := conns[c].closeSem + 1)];
      case SendRequest(r) => Enlist(r);
      case BreakSend(r) => CallFalseCb(r);
    }

    /** A token of the reactor: one message, if there is one. */
    method HandleMessage()
      requires Inv(Abs())
      modifies this, bws, imessages
      ensures old(Abs()).queue == [] ==> Abs() == old(Abs())
      ensures old(Abs()).queue != [] ==> Enabled(old(Abs()), HandlesMessage) && Abs() == Next(old(Abs()), HandlesMessage)
      ensures crashed <==> old(Abs()).queue != [] && ClosesUnissued(old(Abs()))
      ensures Inv(Abs()) <==> !crashed
    {
      var size := imessages.Size();
      if size == 0 {
        return;
      }
      MessageCrashes(Abs());
      if !ClosesUnissued(Abs()) {
        PopMessageInv(Abs());
      }
      var im := imessages.Pop();
      assert Abs() == old(Abs()).(queue := old(Abs()).queue[1..]);
      Dispatch(im);
    }
  }

  lemma {:induction false} NobodyElse(s: State, news: seq<Newcomer>, i: nat)
    requires i <= |news| && !AcceptAll(s, news[..i]).accepted
    ensures AcceptAll(s, news) == AcceptAll(s, news[..i])
    decreases |news| - i
  {
    if i == |news| {
      assert news[..i] == news;
    } else {
      assert news[..i + 1][..i] == news[..i];
      NobodyElse(s, news, i + 1);
    }
  }

  lemma EventIsPossible(s: State, e: NetEvent)
    requires Inv(s) && Enabled(s, HandlesEvent(e))
    ensures Inv(Delivered(s, e.c, e.write)) && (Inv(Event(s, e)) <==> !EarlyData(s, e))
  {
    EventInv(s, e);
    DeliveredInv(s, e.c, e.write);
  }

  lemma AttemptIsPossible(s: State, c: ConnId, i: nat, guess: Option<uint32>, w: World)
    requires Inv(s) && c in s.outgoings && i < |s.outgoings[c]|
    ensures Listed(s, c, i) && Inv(Attempt(s, c, i, guess, w).s)
  {
    ListedPending(s, c, i);
    AttemptInv(s, c, i, guess, w);
  }

  lemma WalkStep(s: State, c: ConnId, i: nat, guess: Option<uint32>, w: World)
    requires Listed(s, c, i)
    ensures var out := Attempt(s, c, i, guess, w);
            SendList(s, c, i, guess, w) == if out.done then out.s else SendList(out.s, c, i + 1, out.guess, w)
  {
  }

  lemma NextList(s: State, order: seq<ConnId>, i: nat, limited: bool, w: World)
    requires i < |order|
    ensures SendAll(s, order[i..], limited, w)
         == SendAll(SendList(s, order[i], 0, GuessFor(s, order[i], limited), w), order[i + 1..], limited, w)
  {
    assert order[i..][1..] == order[i + 1..];
  }
}

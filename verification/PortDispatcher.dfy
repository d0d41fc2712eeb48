/** The Windows dispatchers as objects updated in place, as far as callbacks and semaphores go. */
module WindowsDispatcher {
  import opened CallbackProtocol
  import opened Ids
  import opened MessageQueue
  import opened PortDispatcherProofs
  import opened PortDispatcherSteps

  /**
   One class for both: `kind` tells the dispatcher whose connects and accepts complete at the port
   from the one whose listening thread posts socket events. `stoppers`, `returned` and `acceptCalls`
   are history.
   */
  class PortDispatcher {
    const kind: Kind
    const imessages: InternalMessages<PMsg>
    var conns: map<ConnId, PConn>
    var recvs: set<ConnId>
    var accepted: bool
    var stopSem: nat
    var running: bool
    var stoppers: nat
    var returned: nat
    var acceptCalls: nat

    ghost function Abs(): PState
      reads this, imessages
    {
      PState(imessages.messages, conns, recvs, accepted, stopSem, running, stoppers, returned, acceptCalls)
    }

    constructor (kind: Kind)
      ensures fresh(imessages) && Abs() == START && this.kind == kind
    {
      this.kind := kind;
      imessages := new InternalMessages();
      conns, recvs, accepted, running := map[], {}, true, true;
      stopSem, stoppers, returned, acceptCalls := 0, 0, 0, 0;
    }

    // ---------- client calls ----------

    method Connect(c: ConnId, read: bool)
      requires c !in conns
      modifies `conns, imessages
      ensures Abs() == Next(kind, old(Abs()), ClientConnects(c, read))
    {
      conns := conns[c := PConn(Dialled(read), false, 0, 0)];
      imessages.Push(Create(c));
    }

    method CloseConn(c: ConnId)
      requires c in conns
      modifies imessages
      ensures Abs() == Next(kind, old(Abs()), ClientCloses(c))
    {
      imessages.Push(Close(c));
    }

    /** `close_conn_wait` up to its semaphore; `ResumeClose` is getting past it. */
    method CloseConnWait(c: ConnId)
      requires c in conns
      modifies `conns, imessages
      ensures Abs() == Next(kind, old(Abs()), ClientClosesAndWaits(c))
    {
      conns := conns[c := conns[c].(waiters := conns[c].waiters + 1)];
      imessages.Push(CloseWait(c));
    }

    method ResumeClose(c: ConnId)
      requires c in conns && conns[c].closeSem > 0 && conns[c].waiters > 0
      modifies `conns
      ensures Abs() == Next(kind, old(Abs()), ClientResumes(c))
    {
      conns := conns[c := conns[c].(closeSem := conns[c].closeSem - 1, waiters := conns[c].waiters - 1)];
    }

    /** `stop_accepting` up to its semaphore; `ReturnFromStop` is getting past it. */
    method StopAcceptingConnections()
      modifies `stoppers, imessages
      ensures Abs() == Next(kind, old(Abs()), ClientStopsAccepting)
    {
      imessages.Push(StopAccepting);
      stoppers := stoppers + 1;
    }

    method ReturnFromStop()
      requires stopSem > 0 && stoppers > 0
      modifies `stopSem, `stoppers, `returned
      ensures Abs() == Next(kind, old(Abs()), ClientStopReturns)
    {
      stopSem := stopSem - 1;
      stoppers := stoppers - 1;
      returned := returned + 1;
    }

    // ---------- connections ----------

    /** `close_connection`: the one callback that is left, by the state; a closed connection is left alone. */
    method CloseConnection(c: ConnId)
      requires c in conns
      modifies `conns
      ensures Abs() == PortDispatcherSteps.CloseConnection(old(Abs()), c)
    {
      var cbs := conns[c].cbs;
      match cbs.state {
        case CsWait4Connect =>
          cbs := cbs.(trace := cbs.trace + [CallRefused]);
        case CsConnected =>
          cbs := cbs.(trace := cbs.trace + [CallClosed]);
        case CsClosed =>
          assert conns == conns[c := conns[c].(cbs := Shut(cbs))];
          return;
      }
      cbs := cbs.(closed := false, connected := false, read := false);
      cbs := cbs.(state := CsClosed);
      conns := conns[c := conns[c].(cbs := cbs)];
    }

    method ActivateReceiving(c: ConnId, recvOk: bool) returns (ok: bool)
      modifies `recvs
      ensures ok == recvOk && recvs == if recvOk then old(recvs) + {c} else old(recvs)
    {
      if !recvOk {
        return false;
      }
      recvs := recvs + {c};
      ok := true;
    }

    method EstablishConnection(c: ConnId, recvOk: bool)
      requires c in conns
      modifies `conns, `recvs
      ensures Abs() == ConnectionEstablished(old(Abs()), c, recvOk)
    {
      var cbs := conns[c].cbs;
      if cbs.connected {
        cbs := cbs.(trace := cbs.trace + [CallConnected]);
        cbs := cbs.(connected := false, state := CsConnected);
        conns := conns[c := conns[c].(cbs := cbs)];
        var ok := ActivateReceiving(c, recvOk);
        if !ok {
          CloseConnection(c);
        }
      }
    }

    method Accept(env: Env)
      modifies `conns, `recvs, `acceptCalls
      ensures Abs() == AcceptConnection(old(Abs()), env)
    {
      if !accepted {
        return;
      }
      acceptCalls := acceptCalls + 1;
      conns := conns[env.c := PConn(JustAccepted(env.read), true, 0, 0)];
      var ok := ActivateReceiving(env.c, env.recvOk);
      if !ok {
        CloseConnection(env.c);
      }
    }

    // ---------- completions ----------

    method CompleteRecv(c: ConnId, got: Transfer, again: bool)
      requires Enabled(kind, Abs(), RecvCompletes(c, got, again))
      modifies `conns, `recvs
      ensures Abs() == Next(kind, old(Abs()), RecvCompletes(c, got, again))
    {
      var cbs := conns[c].cbs;
      var open := got != Nothing;
      if got != Nothing && cbs.read {
        conns := conns[c := conns[c].(cbs := cbs.(trace := cbs.trace + [CallRead]))];
        open := got == Bytes;
      }
      assert got != Nothing ==> Abs() == WithConn(old(Abs()), c, old(conns)[c].(cbs := Received(cbs)));
      if !open || !again {
        recvs := recvs - {c};
        CloseConnection(c);
      }
    }

    method CompleteConnect(c: ConnId, recvOk: bool)
      requires Enabled(kind, Abs(), ConnectCompletes(c, recvOk))
      modifies `conns, `recvs
      ensures Abs() == Next(kind, old(Abs()), ConnectCompletes(c, recvOk))
    {
      EstablishConnection(c, recvOk);
    }

    /** An accept has completed; the next one that cannot be made ends the thread. */
    method CompleteAccept(env: Env)
      requires Enabled(kind, Abs(), AcceptCompletes(env))
      modifies `conns, `recvs, `acceptCalls, `running
      ensures Abs() == Next(kind, old(Abs()), AcceptCompletes(env))
    {
      Accept(env);
      if !env.ok {
        running := false;
      }
    }

    method PortClose(c: ConnId)
      requires Enabled(kind, Abs(), PortCloses(c))
      modifies `conns
      ensures Abs() == Next(kind, old(Abs()), PortCloses(c))
    {
      CloseConnection(c);
    }

    /** The listening thread hands a socket event to the dispatcher thread. */
    method Report(c: ConnId, event: SocketEvent)
      requires Enabled(kind, Abs(), SocketReports(c, event))
      modifies imessages
      ensures Abs() == Next(kind, old(Abs()), SocketReports(c, event))
    {
      imessages.Push(External(c, event));
    }

    // ---------- messages ----------

    /** `create`: starting the connect fails with an exception that ends the thread. */
    method CreateConnection(c: ConnId, ok: bool)
      requires c in conns
      modifies `conns, `running
      ensures Abs() == if kind == Overlapped && !ok then old(Abs()).(running := false)
                       else WithConn(old(Abs()), c, old(conns)[c].(created := true))
    {
      if kind == Overlapped && !ok {
        running := false;
        return;
      }
      conns := conns[c := conns[c].(created := true)];
    }

    method HandleExternal(c: ConnId, event: SocketEvent, env: Env)
      requires event != FdAccept ==> c in conns
      modifies `conns, `recvs, `acceptCalls
      ensures Abs() == Handle(kind, old(Abs()), External(c, event), env)
    {
      match event
      case FdAccept =>
        if env.ok {
          Accept(env);
        }
      case FdConnect => EstablishConnection(c, env.recvOk);
      case FdClose => CloseConnection(c);
    }

    method Dispatch(m: PMsg, env: Env)
      requires Known(Abs(), m)
      modifies this
      ensures Abs() == Handle(kind, old(Abs()), m, env)
    {
      match m
      case StopAccepting =>
        accepted := false;
        stopSem := stopSem + 1;
      case Create(c) => CreateConnection(c, env.ok);
      case Close(c) => CloseConnection(c);
      case CloseWait(c) =>
        CloseConnection(c);
        conns := conns[c := conns[c].(closeSem := conns[c].closeSem + 1)];
      case External(c, event) => HandleExternal(c, event, env);
    }

    /** A token from the port; the source asserts that a message is there. */
    method HandleMessage(env: Env)
      requires Inv(Abs()) && Enabled(kind, Abs(), HandlesMessage(env))
      modifies this, imessages
      ensures Abs() == Next(kind, old(Abs()), HandlesMessage(env)) && Inv(Abs())
    {
      StepInv(kind, Abs(), HandlesMessage(env));
      var im := imessages.Pop();
      assert Abs() == old(Abs()).(queue := old(Abs()).queue[1..]);
      Dispatch(im, env);
    }
  }
}

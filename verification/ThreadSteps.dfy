/** The steps of the dispatcher thread keep the dispatcher's invariant. */
module ThreadStepProofs {
  import opened CallbackProtocol
  import opened ClientStepProofs
  import opened DispatcherInvariant
  import opened DispatcherState
  import opened Ids

  // ---------- messages ----------

  lemma PopCounts(s: State, s': State, m: Msg)
    requires |s.queue| > 0 && s'.queue == s.queue[1..]
    ensures InQueue(s, m) == InQueue(s', m) + Count(m == s.queue[0])
  {
    assert s.queue == [s.queue[0]] + s.queue[1..];
  }

  /** The reactor knows every posted connection whose closing has come to the front of the queue. */
  lemma ClosingIsRegistered(s: State, c: ConnId)
    requires |s.queue| > 0 && CreateFirst(s.queue) && Closes(s.queue[0], c)
    requires c in s.conns && LifeOk(s, c) && s.conns[c].issued
    ensures s.conns[c].registered
  {
    assert s.queue[0] in multiset(s.queue);
    forall j | 0 <= j < |s.queue|
      ensures s.queue[j] != Create(c)
    {
    }
    assert Create(c) !in s.queue;
  }

  /** Closing releases what the connection no longer needs. */
  lemma ClosedBooks(s: State, s': State, c: ConnId)
    requires c in s.conns && ConnOk(s, c) && s.conns[c].registered
    requires c in s'.conns && s'.conns[c] == CloseConnection(s, c).conns[c]
    requires |Live(s'.reqs, c)| == |Live(s.reqs, c)|
    requires forall m :: ConcernsConn(m, c) ==> InQueue(s', m) == InQueue(s, m)
    ensures ConnOk(s', c)
  {
    assert ConcernsConn(Create(c), c) && ConcernsConn(Close(c), c) && ConcernsConn(CloseWait(c), c);
    ShutIsConsistent(s.conns[c].cbs);
  }

  lemma PopAboutConn(s: State, s': State, c: ConnId)
    requires Inv(s) && |s.queue| > 0 && ConcernsConn(s.queue[0], c)
    requires c in s.conns && c in s'.conns
    requires s' == s.(queue := s.queue[1..], conns := s.conns[c := s'.conns[c]], bws := s'.bws, counter := s'.counter)
    requires StaysClosed(s, s', c)
    requires ConnOk(s', c)
    ensures Inv(s')
  {
    TailOrder(s.queue);
    TailKnown(s, s');
    forall m | !ConcernsConn(m, c)
      ensures InQueue(s', m) == InQueue(s, m)
    {
      PopCounts(s, s', m);
    }
    ConnChange(s, s', c);
  }

  lemma CreateBooks(s: State, c: ConnId)
    requires |s.queue| > 0 && s.queue[0] == Create(c) && c in s.conns && ConnOk(s, c)
    ensures ConnOk(Handle(s.(queue := s.queue[1..]), Create(c)), c)
  {
    var s' := Handle(s.(queue := s.queue[1..]), Create(c));
    PopCounts(s, s', Create(c));
    PopCounts(s, s', Close(c));
    PopCounts(s, s', CloseWait(c));
  }

  /** A connection after the closing that a message asks for. */
  function ClosedBy(k: Conn, m: Msg): Conn
  {
    k.(cbs := Shut(k.cbs), recv := false, closeSem := k.closeSem + Count(m.CloseWait?),
       refs := k.refs - 1 - if k.cbs.state == CsClosed then 0 else 2 + Count(k.cbs.state == CsWait4Connect))
  }

  lemma ClosedAlone(s: State, c: ConnId)
    requires !s.crashed && c in s.conns && (s.conns[c].recv <==> s.conns[c].cbs.state != CsClosed)
    ensures var s', k := CloseConnection(s, c), s.conns[c];
            && !s'.crashed && c in s'.conns && s'.reqs == s.reqs && s'.queue == s.queue
            && s'.conns[c] == k.(cbs := Shut(k.cbs), recv := false,
                                 refs := k.refs - if k.cbs.state == CsClosed then 0 else 2 + Count(k.cbs.state == CsWait4Connect))
  {
  }

  lemma ReleasedBy(s: State, c: ConnId, m: Msg)
    requires c in s.conns && Closes(m, c)
    ensures var s1 := Unref(s, c);
            var s' := if m.Close? then s1 else WithConn(s1, c, s1.conns[c].(closeSem := s1.conns[c].closeSem + 1));
            && c in s'.conns && s'.reqs == s.reqs && s'.queue == s.queue
            && s'.conns[c] == s.conns[c].(refs := s.conns[c].refs - 1, closeSem := s.conns[c].closeSem + Count(m.CloseWait?))
  {
  }

  lemma HandledClosing(s: State, c: ConnId, m: Msg)
    requires Closes(m, c) && !s.crashed && c in s.conns && (s.conns[c].recv <==> s.conns[c].cbs.state != CsClosed)
    ensures c in Handle(s, m).conns && Handle(s, m).conns[c] == ClosedBy(s.conns[c], m)
    ensures Handle(s, m).reqs == s.reqs && Handle(s, m).queue == s.queue
  {
    ClosedAlone(s, c);
    ReleasedBy(CloseConnection(s, c), c, m);
  }

  lemma ClosingBooks(s: State, s': State, c: ConnId, m: Msg)
    requires |s.queue| > 0 && s.queue[0] == m && Closes(m, c) && c in s.conns && ConnOk(s, c) && s.conns[c].registered
    requires s'.queue == s.queue[1..] && s'.reqs == s.reqs && c in s'.conns && s'.conns[c] == ClosedBy(s.conns[c], m)
    ensures ConnOk(s', c)
  {
    PopCounts(s, s', Create(c));
    PopCounts(s, s', Close(c));
    PopCounts(s, s', CloseWait(c));
    ShutIsConsistent(s.conns[c].cbs);
  }

  lemma PopAboutReq(s: State, s': State, r: ReqId)
    requires Inv(s) && |s.queue| > 0 && ConcernsReq(s.queue[0], r) && ReqKnown(s, r) && r in s'.reqs
    requires s'.queue == s.queue[1..] && s'.reqs == s.reqs[r := s'.reqs[r]] && s'.crashed == s.crashed
    requires s'.reqs[r].conn == s.reqs[r].conn
    requires var c := s.reqs[r].conn; c in s'.conns && s'.conns == s.conns[c := s'.conns[c]]
    requires ListsMoved(s, s', s.reqs[r].conn, r)
    requires StaysClosed(s, s', s.reqs[r].conn)
    requires ConnOk(s', s.reqs[r].conn)
    requires ReqKnown(s', r) && ReqOk(s', r)
    ensures Inv(s')
  {
    TailOrder(s.queue);
    TailKnown(s, s');
    forall m | !ConcernsReq(m, r)
      ensures InQueue(s', m) == InQueue(s, m)
    {
      PopCounts(s, s', m);
    }
    ReqChange(s, s', s.reqs[r].conn, r);
  }

  /** Giving the callback its one value. */
  lemma ReportedOnce(q: Req, value: bool)
    requires ReportOk(q)
    ensures q.sentCb ==> q.Reported(value).reports == [value]
    ensures !q.sentCb ==> q.Reported(value) == q
  {
  }

  lemma BrokenReport(q: Req)
    requires ReportOk(q)
    ensures ReportOk(q.Reported(false).(broken := true))
  {
    ReportedOnce(q, false);
    assert [false][0] != [true][0];
  }

  lemma FalseCbShape(s: State, r: ReqId)
    requires |s.queue| > 0 && ReqKnown(s, r)
    ensures var s', c := CallFalseCb(s.(queue := s.queue[1..]), r), s.reqs[r].conn;
            && s'.conns == s.conns[c := s.conns[c].(refs := s.conns[c].refs - Count(s.reqs[r].refs == 1))]
            && s'.reqs == s.reqs[r := s.reqs[r].Reported(false).(broken := true, refs := s.reqs[r].refs - 1)]
            && s'.outgoings == s.outgoings && s'.queue == s.queue[1..] && s'.crashed == s.crashed
  {
    var s0 := s.(queue := s.queue[1..]);
    UnrefShape(s0, CallFalseCb(s0, r), r, s.reqs[r].Reported(false).(broken := true));
  }

  lemma FalseCbReq(s: State, r: ReqId)
    requires |s.queue| > 0 && s.queue[0] == BreakSend(r) && ReqKnown(s, r) && ReqOk(s, r)
    ensures var s' := CallFalseCb(s.(queue := s.queue[1..]), r);
            && s'.conns[s.reqs[r].conn].cbs == s.conns[s.reqs[r].conn].cbs
            && ReqKnown(s', r) && ReqOk(s', r)
  {
    FalseCbShape(s, r);
    BrokenReport(s.reqs[r]);
    BrokenBooks(s, CallFalseCb(s.(queue := s.queue[1..]), r), r);
  }

  lemma BrokenBooks(s: State, s': State, r: ReqId)
    requires |s.queue| > 0 && s.queue[0] == BreakSend(r) && ReqKnown(s, r) && ReqRefsExact(s, r) && PlaceOk(s, r)
    requires s'.queue == s.queue[1..] && s'.outgoings == s.outgoings && r in s'.reqs
    requires s'.reqs[r] == s.reqs[r].Reported(false).(broken := true, refs := s.reqs[r].refs - 1)
    requires s.reqs[r].conn in s'.conns && s'.conns[s.reqs[r].conn].cbs == s.conns[s.reqs[r].conn].cbs
    ensures ReqRefsExact(s', r) && PlaceOk(s', r)
  {
    PopCounts(s, s', SendRequest(r));
    PopCounts(s, s', BreakSend(r));
  }

  lemma FalseCbConn(s: State, r: ReqId)
    requires |s.queue| > 0 && s.queue[0] == BreakSend(r) && ReqKnown(s, r) && ReqOk(s, r) && ConnOk(s, s.reqs[r].conn)
    ensures var s' := CallFalseCb(s.(queue := s.queue[1..]), r);
            && s'.conns == s.conns[s.reqs[r].conn := s'.conns[s.reqs[r].conn]]
            && s'.reqs == s.reqs[r := s'.reqs[r]] && s'.outgoings == s.outgoings && s'.queue == s.queue[1..]
            && s'.crashed == s.crashed
            && ConnOk(s', s.reqs[r].conn)
  {
    FalseCbReq(s, r);
    FalseCbShape(s, r);
    LiveHere(s.reqs, r, s.reqs[r].Reported(false).(broken := true, refs := s.reqs[r].refs - 1));
    FalseCbRefs(s, CallFalseCb(s.(queue := s.queue[1..]), r), r);
  }

  lemma FalseCbRefs(s: State, s': State, r: ReqId)
    requires |s.queue| > 0 && s.queue[0] == BreakSend(r) && ReqKnown(s, r) && ConnOk(s, s.reqs[r].conn)
    requires s'.queue == s.queue[1..] && s.reqs[r].conn in s'.conns
    requires s'.conns[s.reqs[r].conn] == s.conns[s.reqs[r].conn].(refs := s'.conns[s.reqs[r].conn].refs)
    requires s'.conns[s.reqs[r].conn].refs - s.conns[s.reqs[r].conn].refs
          == |Live(s'.reqs, s.reqs[r].conn)| - |Live(s.reqs, s.reqs[r].conn)|
    ensures ConnOk(s', s.reqs[r].conn)
  {
    forall m | ConcernsConn(m, s.reqs[r].conn)
      ensures InQueue(s', m) == InQueue(s, m)
    {
      PopCounts(s, s', m);
    }
    RefsFollowTheRequests(s, s', s.reqs[r].conn);
  }

  lemma BreakMessageInv(s: State, r: ReqId)
    requires Inv(s) && |s.queue| > 0 && s.queue[0] == BreakSend(r) && ReqKnown(s, r)
    ensures Inv(PopMessage(s))
  {
    assert ReqOk(s, r);
    FalseCbReq(s, r);
    FalseCbConn(s, r);
    SameLists(s, PopMessage(s), s.reqs[r].conn, r);
    PopAboutReq(s, PopMessage(s), r);
  }

  lemma EnlistedShape(s: State, r: ReqId)
    requires ReqKnown(s, r)
    ensures var s', c := Enlisted(s, r), s.reqs[r].conn;
            && s'.queue == s.queue && s'.crashed == s.crashed
            && c in s'.conns && s'.conns == s.conns[c := s.conns[c].(order := s.conns[c].order + [r])]
            && r in s'.reqs && s'.reqs == s.reqs[r := s.reqs[r].(phase := s'.reqs[r].phase, pos := |s.conns[c].order|)]
            && s'.reqs[r].phase == (if s.conns[c].cbs.state == CsClosed then Dropped else Pending)
            && s'.outgoings == if s.conns[c].cbs.state == CsClosed then s.outgoings
                               else s.outgoings[c := (if c in s.outgoings then s.outgoings[c] else []) + [r]]
  {
  }

  lemma EnlistReq(s: State, r: ReqId)
    requires |s.queue| > 0 && s.queue[0] == SendRequest(r) && ReqKnown(s, r) && ReqOk(s, r)
    ensures var s' := Enlisted(s.(queue := s.queue[1..]), r); ReqKnown(s', r) && ReqOk(s', r)
  {
    var s' := Enlisted(s.(queue := s.queue[1..]), r);
    EnlistedShape(s.(queue := s.queue[1..]), r);
    EnlistedBooks(s, s', r);
  }

  lemma EnlistedBooks(s: State, s': State, r: ReqId)
    requires |s.queue| > 0 && s.queue[0] == SendRequest(r) && ReqKnown(s, r) && ReqOk(s, r) && s'.queue == s.queue[1..]
    requires var c := s.reqs[r].conn; c in s'.conns && s'.conns[c].cbs == s.conns[c].cbs
    requires r in s'.reqs && s'.reqs[r] == s.reqs[r].(phase := s'.reqs[r].phase, pos := s'.reqs[r].pos)
    requires s'.reqs[r].phase == if s.conns[s.reqs[r].conn].cbs.state == CsClosed then Dropped else Pending
    requires s'.outgoings == if s.conns[s.reqs[r].conn].cbs.state == CsClosed then s.outgoings
                             else s.outgoings[s.reqs[r].conn :=
                                    (if s.reqs[r].conn in s.outgoings then s.outgoings[s.reqs[r].conn] else []) + [r]]
    ensures ReqOk(s', r)
  {
    PopCounts(s, s', SendRequest(r));
    PopCounts(s, s', BreakSend(r));
  }

  lemma EnlistConn(s: State, r: ReqId)
    requires |s.queue| > 0 && s.queue[0] == SendRequest(r) && ReqKnown(s, r) && ConnOk(s, s.reqs[r].conn)
    ensures ConnOk(Enlisted(s.(queue := s.queue[1..]), r), s.reqs[r].conn)
  {
    var c := s.reqs[r].conn;
    var s' := Enlisted(s.(queue := s.queue[1..]), r);
    EnlistedShape(s.(queue := s.queue[1..]), r);
    LiveHere(s.reqs, r, s'.reqs[r]);
    forall m | ConcernsConn(m, c)
      ensures InQueue(s', m) == InQueue(s, m)
    {
      PopCounts(s, s', m);
    }
    RefsFollowTheRequests(s, s', c);
  }

  lemma EnlistLists(s: State, r: ReqId)
    requires |s.queue| > 0 && s.queue[0] == SendRequest(r) && ReqKnown(s, r) && PlaceOk(s, r)
    requires forall c :: c in s.outgoings ==> ListKnown(s, c, s.outgoings[c])
    ensures ListsMoved(s, Enlisted(s.(queue := s.queue[1..]), r), s.reqs[r].conn, r)
  {
    var c := s.reqs[r].conn;
    var s' := Enlisted(s.(queue := s.queue[1..]), r);
    assert s.queue[0] in multiset(s.queue);
    assert !OnList(s, c, r);
    if s.conns[c].cbs.state != CsClosed {
      var list := if c in s.outgoings then s.outgoings[c] else [];
      assert s'.outgoings[c] == list + [r];
      forall t | t != r
        ensures t in list + [r] <==> t in list
      {
      }
    }
  }

  /** The next message closes a connection whose connect failed at once: it has no receive buffer. */
  predicate ClosesUnissued(s: State)
  {
    && |s.queue| > 0 && (s.queue[0].Close? || s.queue[0].CloseWait?)
    && s.queue[0].c in s.conns && !s.conns[s.queue[0].c].issued
  }

  lemma NextMessageKnown(s: State)
    requires Inv(s) && |s.queue| > 0
    ensures Known(s, s.queue[0])
    ensures s.queue[0].SendRequest? || s.queue[0].BreakSend? ==> ReqKnown(s, s.queue[0].r)
  {
    assert Known(s, s.queue[0]);
  }

  /** A message crashes the process exactly when it closes a connection whose connect failed at once. */
  lemma MessageCrashes(s: State)
    requires Inv(s) && |s.queue| > 0
    ensures Known(s, s.queue[0])
    ensures s.queue[0].SendRequest? || s.queue[0].BreakSend? ==> ReqKnown(s, s.queue[0].r)
    ensures PopMessage(s).crashed <==> ClosesUnissued(s)
  {
    NextMessageKnown(s);
    var m, s0 := s.queue[0], s.(queue := s.queue[1..]);
    if m.Close? || m.CloseWait? {
      assert ConnOk(s, m.c);
      ClosingCrashes(s0, m.c, m);
    } else if m.BreakSend? {
      FalseCbShape(s, m.r);
    }
  }

  lemma PopMessageInv(s: State)
    requires Inv(s) && |s.queue| > 0 && !ClosesUnissued(s)
    ensures Known(s, s.queue[0])
    ensures s.queue[0].SendRequest? || s.queue[0].BreakSend? ==> ReqKnown(s, s.queue[0].r)
    ensures Inv(PopMessage(s))
  {
    var m := s.queue[0];
    NextMessageKnown(s);
    match m
    case StopAccepting =>
      assert [m] + s.queue[1..] == s.queue;
      BystanderInv(s, PopMessage(s));
    case Create(c) =>
      CreateMessageInv(s, c);
    case Close(c) =>
      CloseMessageInv(s, c);
    case CloseWait(c) =>
      CloseMessageInv(s, c);
    case SendRequest(r) =>
      SendMessageInv(s, r);
    case BreakSend(r) =>
      BreakMessageInv(s, r);
  }

  lemma CreateMessageInv(s: State, c: ConnId)
    requires Inv(s) && |s.queue| > 0 && s.queue[0] == Create(c) && c in s.conns
    ensures Inv(PopMessage(s))
  {
    assert ConnOk(s, c);
    CreateBooks(s, c);
    PopAboutConn(s, PopMessage(s), c);
  }

  /** Closing changes one connection, the limiter, the counter, and nothing else. */
  lemma ClosedShape(s: State, c: ConnId)
    requires c in s.conns
    ensures var s' := CloseConnection(s, c);
            && c in s'.conns && s'.conns == s.conns[c := s'.conns[c]] && s'.conns[c].cbs.state == CsClosed
            && s' == s.(conns := s'.conns, bws := s'.bws, counter := s'.counter, crashed := s'.crashed)
  {
    assert s.conns == s.conns[c := s.conns[c]];
  }

  lemma CloseShape(s: State, c: ConnId, m: Msg)
    requires c in s.conns && Closes(m, c)
    ensures var s' := Handle(s, m);
            c in s'.conns && s' == s.(conns := s.conns[c := s'.conns[c]], bws := s'.bws, counter := s'.counter, crashed := s'.crashed)
    ensures Handle(s, m).conns[c].cbs.state == CsClosed
  {
    ClosedShape(s, c);
    AfterClosing(CloseConnection(s, c), c, m, Handle(s, m));
  }

  /** What a close message does after the closing itself. */
  lemma AfterClosing(s1: State, c: ConnId, m: Msg, s': State)
    requires c in s1.conns && Closes(m, c)
    requires s' == if s1.crashed then s1 else if m.Close? then Unref(s1, c)
                   else WithConn(Unref(s1, c), c, Unref(s1, c).conns[c].(closeSem := Unref(s1, c).conns[c].closeSem + 1))
    ensures c in s'.conns && s'.conns == s1.conns[c := s'.conns[c]] && s' == s1.(conns := s'.conns)
    ensures s'.conns[c] == s1.conns[c].(refs := s'.conns[c].refs, closeSem := s'.conns[c].closeSem)
  {
    assert s1.conns == s1.conns[c := s1.conns[c]];
  }

  lemma ClosingCrashes(s: State, c: ConnId, m: Msg)
    requires c in s.conns && Closes(m, c) && !s.crashed
    ensures Handle(s, m).crashed <==> s.conns[c].cbs.state != CsClosed && !s.conns[c].recv
  {
  }

  lemma CloseMessageInv(s: State, c: ConnId)
    requires Inv(s) && |s.queue| > 0 && Closes(s.queue[0], c) && c in s.conns && s.conns[c].issued
    ensures Inv(PopMessage(s))
  {
    var s0, m := s.(queue := s.queue[1..]), s.queue[0];
    assert ConnOk(s, c);
    ClosingIsRegistered(s, c);
    HandledClosing(s0, c, m);
    ClosingBooks(s, Handle(s0, m), c, m);
    CloseShape(s0, c, m);
    PopAboutConn(s, PopMessage(s), c);
  }

  lemma SendMessageInv(s: State, r: ReqId)
    requires Inv(s) && |s.queue| > 0 && s.queue[0] == SendRequest(r) && ReqKnown(s, r)
    ensures Inv(PopMessage(s))
  {
    assert ReqOk(s, r);
    assert ConnOk(s, s.reqs[r].conn);
    EnlistReq(s, r);
    EnlistConn(s, r);
    EnlistLists(s, r);
    PopAboutReq(s, PopMessage(s), r);
  }
}

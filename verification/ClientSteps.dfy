/** Client calls, the clock and the kernel keep the dispatcher's invariant. */
module ClientStepProofs {
  import opened CallbackProtocol
  import opened DispatcherInvariant
  import opened DispatcherState
  import opened DispatcherSteps
  import opened Ids

  lemma PostedCounts(s: State, m: Msg, x: Msg)
    ensures InQueue(Posted(s, m), x) == InQueue(s, x) + Count(x == m)
  {
  }

  lemma PostedOrder(queue: seq<Msg>, m: Msg)
    requires CreateFirst(queue)
    requires m.Create? ==> multiset(queue)[Close(m.c)] == 0 && multiset(queue)[CloseWait(m.c)] == 0
    ensures CreateFirst(queue + [m])
  {
    forall i, j | 0 <= i < j < |queue + [m]| && (queue + [m])[j].Create?
      ensures (queue + [m])[i] != Close((queue + [m])[j].c) && (queue + [m])[i] != CloseWait((queue + [m])[j].c)
    {
      if j == |queue| {
        assert queue[i] in multiset(queue);
      }
    }
  }

  /** A connection's counters and one message about it move together. */
  lemma PostAboutConn(s: State, s': State, c: ConnId, k: Conn, m: Msg)
    requires Inv(s) && ConcernsConn(m, c)
    requires s' == Posted(WithConn(s, c, k), m).(uncounted := s'.uncounted)
    requires m.Create? ==> InQueue(s, Close(c)) == 0 && InQueue(s, CloseWait(c)) == 0
    requires StaysClosed(s, s', c)
    requires ConnOk(s', c)
    ensures Inv(s')
  {
    PostedOrder(s.queue, m);
    forall i | 0 <= i < |s'.queue|
      ensures Known(s', s'.queue[i])
    {
      if i < |s.queue| {
        assert Known(s, s.queue[i]);
      }
    }
    ConnChange(s, s', c);
  }

  /** Only the counters of a connection move. */
  lemma ConnOnly(s: State, s': State, c: ConnId)
    requires Inv(s) && c in s'.conns
    requires s' == s.(conns := s.conns[c := s'.conns[c]], bws := s'.bws, counter := s'.counter, now := s'.now,
                      accepted := s'.accepted, uncounted := s'.uncounted)
    requires StaysClosed(s, s', c)
    requires ConnOk(s', c)
    ensures Inv(s')
  {
    forall i | 0 <= i < |s'.queue|
      ensures Known(s', s'.queue[i])
    {
      assert Known(s, s.queue[i]);
    }
    ConnChange(s, s', c);
  }

  /** Nothing refers to an address before the object exists. */
  lemma NothingAboutTheUnknown(s: State, c: ConnId)
    requires Inv(s) && c !in s.conns
    ensures InQueue(s, Create(c)) == 0 && InQueue(s, Close(c)) == 0 && InQueue(s, CloseWait(c)) == 0
    ensures Live(s.reqs, c) == {}
  {
    forall i | 0 <= i < |s.queue|
      ensures !ConcernsConn(s.queue[i], c)
    {
      assert Known(s, s.queue[i]);
    }
    assert ConcernsConn(Create(c), c) && ConcernsConn(Close(c), c) && ConcernsConn(CloseWait(c), c);
    forall r | r in s.reqs
      ensures s.reqs[r].conn != c
    {
      assert ReqKnown(s, r);
    }
  }

  lemma MakeConnInv(s: State, c: ConnId)
    requires Inv(s) && Enabled(s, ClientMakes(c))
    ensures Inv(MakeConn(s, c))
  {
    NothingAboutTheUnknown(s, c);
    FreshIsConsistent(false);
    ConnOnly(s, MakeConn(s, c), c);
  }

  lemma DialInv(s: State, c: ConnId, read: bool, ok: bool)
    requires Inv(s) && Enabled(s, ClientDials(c, read, ok))
    ensures Inv(Dial(s, c, read, ok))
  {
    var s' := Dial(s, c, read, ok);
    assert ConnOk(s, c);
    FreshIsConsistent(read);
    if ok {
      PostedCounts(s, Create(c), Create(c));
      PostedCounts(s, Create(c), Close(c));
      PostedCounts(s, Create(c), CloseWait(c));
      PostAboutConn(s, s', c, s'.conns[c], Create(c));
    } else {
      ConnOnly(s, s', c);
    }
  }

  lemma ConnectInv(s: State, c: ConnId, read: bool)
    requires Inv(s) && Enabled(s, ClientConnects(c, read))
    ensures Inv(Connect(s, c, read))
  {
    var s' := Connect(s, c, read);
    NothingAboutTheUnknown(s, c);
    FreshIsConsistent(read);
    PostAboutConn(s, s', c, s'.conns[c], Create(c));
  }

  lemma CloseConnInv(s: State, c: ConnId)
    requires Inv(s) && Enabled(s, ClientCloses(c))
    ensures Inv(CloseConn(s, c))
  {
    assert ConnOk(s, c);
    var s' := CloseConn(s, c);
    PostAboutConn(s, s', c, s'.conns[c], Close(c));
  }

  lemma CloseConnWaitBooks(s: State, c: ConnId)
    requires c in s.conns && ConnOk(s, c) && s.conns[c].dialled && s.conns[c].clientRefs > s.conns[c].waiters
    ensures ConnOk(CloseConnWait(s, c), c)
  {
    PostedCounts(s, CloseWait(c), Create(c));
    PostedCounts(s, CloseWait(c), Close(c));
    PostedCounts(s, CloseWait(c), CloseWait(c));
  }

  lemma CloseConnWaitInv(s: State, c: ConnId)
    requires Inv(s) && Enabled(s, ClientClosesAndWaits(c))
    ensures Inv(CloseConnWait(s, c))
  {
    assert ConnOk(s, c);
    CloseConnWaitBooks(s, c);
    PostAboutConn(s, CloseConnWait(s, c), c, CloseConnWait(s, c).conns[c], CloseWait(c));
  }

  lemma ResumeInv(s: State, c: ConnId)
    requires Inv(s) && Enabled(s, ClientResumes(c))
    ensures Inv(Resume(s, c))
  {
    assert ConnOk(s, c);
    ConnOnly(s, Resume(s, c), c);
  }

  lemma AddrefInv(s: State, c: ConnId)
    requires Inv(s) && Enabled(s, ClientAddrefs(c))
    ensures Inv(Addref(s, c))
  {
    assert ConnOk(s, c);
    ConnOnly(s, Addref(s, c), c);
  }

  lemma ReleaseInv(s: State, c: ConnId)
    requires Inv(s) && Enabled(s, ClientReleases(c))
    ensures Inv(Release(s, c))
  {
    assert ConnOk(s, c);
    ConnOnly(s, Release(s, c), c);
  }

  lemma KernelConnInv(s: State, c: ConnId, k: Conn)
    requires Inv(s) && c in s.conns && k == s.conns[c].(sock := k.sock)
    ensures Inv(WithConn(s, c, k))
  {
    assert ConnOk(s, c);
    ConnOnly(s, WithConn(s, c, k), c);
  }

  /** Nothing refers to a request before `send` has made it. */
  lemma NothingAboutTheUnsent(s: State, r: ReqId)
    requires Inv(s) && r !in s.reqs
    ensures InQueue(s, SendRequest(r)) == 0 && InQueue(s, BreakSend(r)) == 0
    ensures forall c :: !OnList(s, c, r)
  {
    forall i | 0 <= i < |s.queue|
      ensures !ConcernsReq(s.queue[i], r)
    {
      assert Known(s, s.queue[i]);
    }
    assert ConcernsReq(SendRequest(r), r) && ConcernsReq(BreakSend(r), r);
    forall c | c in s.outgoings
      ensures r !in s.outgoings[c]
    {
      assert ListKnown(s, c, s.outgoings[c]);
    }
  }

  /** A request and one message about it move together. */
  lemma PostAboutReq(s: State, s': State, r: ReqId, m: Msg)
    requires Inv(s) && ConcernsReq(m, r) && r in s'.reqs
    requires s'.reqs == s.reqs[r := s'.reqs[r]] && s'.outgoings == s.outgoings && s'.queue == s.queue + [m]
    requires s'.crashed == s.crashed
    requires var c := s'.reqs[r].conn; c in s.conns && c in s'.conns && s'.conns == s.conns[c := s'.conns[c]]
    requires r in s.reqs ==> s.reqs[r].conn == s'.reqs[r].conn && s.reqs[r].phase == s'.reqs[r].phase
    requires StaysClosed(s, s', s'.reqs[r].conn)
    requires ConnOk(s', s'.reqs[r].conn)
    requires ReqKnown(s', r) && ReqOk(s', r)
    ensures Inv(s')
  {
    var c := s'.reqs[r].conn;
    PostedOrder(s.queue, m);
    PostKnown(s, s', m);
    SameLists(s, s', c, r);
    ReqChange(s, s', c, r);
  }

  lemma SendInv(s: State, r: ReqId, c: ConnId, data: Payload, cb: bool)
    requires Inv(s) && Enabled(s, ClientSends(r, c, data, cb))
    ensures Inv(Send(s, r, c, data, cb))
  {
    var s' := Send(s, r, c, data, cb);
    NothingAboutTheUnsent(s, r);
    SentBooks(s, r, c, data, cb);
    PostAboutReq(s, s', r, SendRequest(r));
  }

  /** The references of a connection follow the requests alive on it; its queue messages stay. */
  lemma RefsFollowTheRequests(s: State, s': State, c: ConnId)
    requires c in s.conns && c in s'.conns && ConnOk(s, c)
    requires s'.conns[c] == s.conns[c].(refs := s'.conns[c].refs, sock := s'.conns[c].sock, calls := s'.conns[c].calls,
               order := s'.conns[c].order, wire := s'.conns[c].wire, log := s'.conns[c].log, doneLog := s'.conns[c].doneLog)
    requires forall m :: ConcernsConn(m, c) ==> InQueue(s', m) == InQueue(s, m)
    requires s'.conns[c].refs - s.conns[c].refs == |Live(s'.reqs, c)| - |Live(s.reqs, c)|
    ensures ConnOk(s', c)
  {
    assert ConcernsConn(Create(c), c) && ConcernsConn(Close(c), c) && ConcernsConn(CloseWait(c), c);
  }

  lemma SentBooks(s: State, r: ReqId, c: ConnId, data: Payload, cb: bool)
    requires c in s.conns && r !in s.reqs && ConnOk(s, c)
    requires InQueue(s, SendRequest(r)) == 0 && InQueue(s, BreakSend(r)) == 0 && !OnList(s, c, r)
    ensures ConnOk(Send(s, r, c, data, cb), c)
    ensures ReqOk(Send(s, r, c, data, cb), r)
  {
    LiveHere(s.reqs, r, Send(s, r, c, data, cb).reqs[r]);
    RefsFollowTheRequests(s, Send(s, r, c, data, cb), c);
  }

  lemma PostKnown(s: State, s': State, m: Msg)
    requires forall i :: 0 <= i < |s.queue| ==> Known(s, s.queue[i])
    requires s'.queue == s.queue + [m] && Known(s', m)
    requires s.conns.Keys <= s'.conns.Keys && s.reqs.Keys <= s'.reqs.Keys
    ensures forall i :: 0 <= i < |s'.queue| ==> Known(s', s'.queue[i])
  {
    forall i | 0 <= i < |s'.queue|
      ensures Known(s', s'.queue[i])
    {
      if i < |s.queue| {
        assert Known(s, s.queue[i]);
      }
    }
  }

  /** The lists stay as they are while a request on `c` outside them, or without a change of phase, changes. */
  lemma SameLists(s: State, s': State, c: ConnId, r: ReqId)
    requires Wf(s) && s'.outgoings == s.outgoings && s.conns.Keys <= s'.conns.Keys
    requires r in s'.reqs && s'.reqs == s.reqs[r := s'.reqs[r]]
    requires s'.reqs[r].conn == c && (r in s.reqs ==> s.reqs[r].conn == c && s.reqs[r].phase == s'.reqs[r].phase)
    ensures ListsMoved(s, s', c, r)
  {
    if c in s.outgoings {
      assert ListKnown(s, c, s.outgoings[c]);
    }
  }

  lemma ReleaseReqInv(s: State, r: ReqId)
    requires Inv(s) && Enabled(s, ClientReleasesReq(r))
    ensures Inv(ReleaseReq(s, r))
  {
    UnrefReqInv(s, ReleaseReq(s, r), r, s.reqs[r].(clientRef := false));
  }

  /** A request outside the queue and without a change of phase moves. */
  lemma ReqOnly(s: State, s': State, r: ReqId)
    requires Inv(s) && r in s.reqs && r in s'.reqs
    requires s'.reqs == s.reqs[r := s'.reqs[r]] && s'.outgoings == s.outgoings && s'.queue == s.queue
    requires s'.crashed == s.crashed
    requires var c := s'.reqs[r].conn; c in s.conns && c in s'.conns && s'.conns == s.conns[c := s'.conns[c]]
    requires s.reqs[r].conn == s'.reqs[r].conn && s.reqs[r].phase == s'.reqs[r].phase
    requires StaysClosed(s, s', s'.reqs[r].conn)
    requires ConnOk(s', s'.reqs[r].conn)
    requires ReqKnown(s', r) && ReqOk(s', r)
    ensures Inv(s')
  {
    var c := s'.reqs[r].conn;
    KnownStill(s, s');
    SameLists(s, s', c, r);
    ReqChange(s, s', c, r);
  }

  /** A reference to a request is given up, and the books say so. */
  lemma UnrefReqInv(s: State, s': State, r: ReqId, q: Req)
    requires Inv(s) && ReqKnown(s, r)
    requires q == s.reqs[r].(clientRef := q.clientRef, sentCb := q.sentCb, reports := q.reports)
    requires s' == UnrefReq(WithReq(s, r, q), r)
    requires ReqRefsExact(s', r) && ReportOk(q)
    ensures Inv(s')
  {
    assert ReqOk(s, r) && ConnOk(s, s.reqs[r].conn);
    UnrefBooks(s, s', r, q);
    UnrefReqBooks(s, s', r, q);
    ReqOnly(s, s', r);
  }

  lemma UnrefReqBooks(s: State, s': State, r: ReqId, q: Req)
    requires ReqKnown(s, r) && ReqOk(s, r)
    requires q == s.reqs[r].(clientRef := q.clientRef, sentCb := q.sentCb, reports := q.reports)
    requires s' == UnrefReq(WithReq(s, r, q), r)
    requires ReqRefsExact(s', r) && ReportOk(q)
    ensures s'.outgoings == s.outgoings && s'.queue == s.queue && s'.crashed == s.crashed && ReqKnown(s', r) && ReqOk(s', r)
    ensures s'.reqs[r].conn == s.reqs[r].conn && s'.reqs[r].phase == s.reqs[r].phase
  {
    UnrefShape(s, s', r, q);
  }

  lemma UnrefBooks(s: State, s': State, r: ReqId, q: Req)
    requires ReqKnown(s, r) && ConnOk(s, s.reqs[r].conn) && q.conn == s.reqs[r].conn && q.refs == s.reqs[r].refs
    requires q.sent <= |q.data|
    requires s' == UnrefReq(WithReq(s, r, q), r)
    requires s'.reqs[r].refs >= 0
    ensures s'.reqs == s.reqs[r := s'.reqs[r]] && s'.conns == s.conns[q.conn := s'.conns[q.conn]]
    ensures ConnOk(s', q.conn) && StaysClosed(s, s', q.conn)
  {
    UnrefShape(s, s', r, q);
    LiveHere(s.reqs, r, s'.reqs[r]);
    RefsFollowTheRequests(s, s', q.conn);
  }

  lemma UnrefShape(s: State, s': State, r: ReqId, q: Req)
    requires ReqKnown(s, r) && q.conn == s.reqs[r].conn && q.refs == s.reqs[r].refs
    requires q.sent <= |q.data|
    requires s' == UnrefReq(WithReq(s, r, q), r)
    ensures s'.reqs == s.reqs[r := q.(refs := q.refs - 1)]
    ensures s'.conns == s.conns[q.conn := s.conns[q.conn].(refs := s.conns[q.conn].refs - Count(q.refs == 1))]
    ensures s' == s.(reqs := s'.reqs, conns := s'.conns)
  {
  }

  lemma KnownStill(s: State, s': State)
    requires forall i :: 0 <= i < |s.queue| ==> Known(s, s.queue[i])
    requires s'.queue == s.queue
    requires s.conns.Keys <= s'.conns.Keys && s.reqs.Keys <= s'.reqs.Keys
    ensures forall i :: 0 <= i < |s'.queue| ==> Known(s', s'.queue[i])
  {
    forall i | 0 <= i < |s'.queue|
      ensures Known(s', s'.queue[i])
    {
      assert Known(s, s.queue[i]);
    }
  }

  lemma BreakInv(s: State, r: ReqId)
    requires Inv(s) && Enabled(s, ClientBreaks(r))
    ensures Inv(Break(s, r))
  {
    assert ReqOk(s, r) && ConnOk(s, s.reqs[r].conn);
    BreakBooks(s, r);
    BreakReq(s, r);
    BreakShape(s, r);
    PostAboutReq(s, Break(s, r), r, BreakSend(r));
  }

  lemma BreakShape(s: State, r: ReqId)
    requires ReqKnown(s, r)
    ensures var s', c := Break(s, r), s.reqs[r].conn;
            && c in s'.conns && s'.conns == s.conns[c := s'.conns[c]]
            && s'.reqs == s.reqs[r := s'.reqs[r]] && s'.reqs[r].conn == c
            && s'.queue == s.queue + [BreakSend(r)] && s'.outgoings == s.outgoings && s'.crashed == s.crashed
  {
    assert s.conns == s.conns[s.reqs[r].conn := s.conns[s.reqs[r].conn]];
  }

  lemma BreakBooks(s: State, r: ReqId)
    requires ReqKnown(s, r) && ReqOk(s, r) && s.reqs[r].clientRef && ConnOk(s, s.reqs[r].conn)
    ensures ConnOk(Break(s, r), s.reqs[r].conn)
  {
    LiveHere(s.reqs, r, Break(s, r).reqs[r]);
    RefsFollowTheRequests(s, Break(s, r), s.reqs[r].conn);
  }

  lemma BreakReq(s: State, r: ReqId)
    requires ReqKnown(s, r) && ReqOk(s, r) && s.reqs[r].clientRef
    ensures ReqOk(Break(s, r), r)
  {
  }

  /** Steps that touch neither connections nor requests nor messages about them. */
  ghost predicate Bystander(s: State, s': State)
  {
    && s'.conns == s.conns && s'.reqs == s.reqs && s'.outgoings == s.outgoings && s'.crashed == s.crashed
    && (s'.queue == s.queue || s'.queue == s.queue + [StopAccepting] || [StopAccepting] + s'.queue == s.queue)
  }

  lemma BystanderCounts(s: State, s': State, m: Msg)
    requires Bystander(s, s') && !m.StopAccepting?
    ensures InQueue(s', m) == InQueue(s, m)
  {
    if [StopAccepting] + s'.queue == s.queue {
      assert multiset(s.queue) == multiset{StopAccepting} + multiset(s'.queue);
    }
  }

  lemma BystanderConn(s: State, s': State, d: ConnId)
    requires Bystander(s, s') && d in s.conns && ConnOk(s, d)
    ensures ConnOk(s', d)
  {
    BystanderCounts(s, s', Create(d));
    BystanderCounts(s, s', Close(d));
    BystanderCounts(s, s', CloseWait(d));
  }

  lemma BystanderReq(s: State, s': State, t: ReqId)
    requires Bystander(s, s') && ReqKnown(s, t) && ReqOk(s, t)
    ensures ReqKnown(s', t) && ReqOk(s', t)
  {
    BystanderCounts(s, s', SendRequest(t));
    BystanderCounts(s, s', BreakSend(t));
  }

  lemma BystanderInv(s: State, s': State)
    requires Inv(s) && Bystander(s, s')
    ensures Inv(s')
  {
    BystanderQueue(s, s');
    forall d | d in s'.conns
      ensures ConnOk(s', d)
    {
      BystanderConn(s, s', d);
    }
    forall t | t in s'.reqs
      ensures ReqKnown(s', t) && ReqOk(s', t)
    {
      BystanderReq(s, s', t);
    }
    forall d | d in s'.outgoings
      ensures ListKnown(s', d, s'.outgoings[d])
    {
      assert ListKnown(s, d, s.outgoings[d]);
    }
  }

  lemma BystanderQueue(s: State, s': State)
    requires Inv(s) && Bystander(s, s')
    ensures CreateFirst(s'.queue)
    ensures forall i :: 0 <= i < |s'.queue| ==> Known(s', s'.queue[i])
  {
    if s'.queue == s.queue + [StopAccepting] {
      PostedOrder(s.queue, StopAccepting);
      PostKnown(s, s', StopAccepting);
    } else if [StopAccepting] + s'.queue == s.queue {
      TailOrder(s.queue);
      TailKnown(s, s');
    } else {
      KnownStill(s, s');
    }
  }

  lemma TailOrder(queue: seq<Msg>)
    requires CreateFirst(queue) && |queue| > 0
    ensures CreateFirst(queue[1..])
  {
    forall i, j | 0 <= i < j < |queue[1..]| && queue[1..][j].Create?
      ensures queue[1..][i] != Close(queue[1..][j].c) && queue[1..][i] != CloseWait(queue[1..][j].c)
    {
      assert queue[1..][i] == queue[i + 1] && queue[1..][j] == queue[j + 1];
    }
  }

  lemma TailKnown(s: State, s': State)
    requires forall i :: 0 <= i < |s.queue| ==> Known(s, s.queue[i])
    requires |s.queue| > 0 && s'.queue == s.queue[1..]
    requires s.conns.Keys <= s'.conns.Keys && s.reqs.Keys <= s'.reqs.Keys
    ensures forall i :: 0 <= i < |s'.queue| ==> Known(s', s'.queue[i])
  {
    forall i | 0 <= i < |s'.queue|
      ensures Known(s', s'.queue[i])
    {
      assert Known(s, s.queue[i + 1]);
    }
  }
}

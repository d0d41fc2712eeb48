/** What holds in every reachable state of the Linux dispatcher. */
module DispatcherInvariant {
  import opened CallbackProtocol
  import opened DispatcherState
  import opened Ids

  /** The requests on a connection whose objects exist. */
  ghost function Live(reqs: map<ReqId, Req>, c: ConnId): set<ReqId>
  {
    set r | r in reqs && reqs[r].conn == c && reqs[r].refs > 0
  }

  ghost function InQueue(s: State, m: Msg): nat
  {
    multiset(s.queue)[m]
  }

  // ---------- connections ----------

  /** Who holds references to a connection. */
  ghost function Holders(s: State, c: ConnId): nat
    requires c in s.conns
  {
    var k := s.conns[c];
    k.clientRefs
    + Count(k.cbs.state != CsClosed) + Count(k.recv)
    + Count(k.registered && k.cbs.state == CsWait4Connect)
    + InQueue(s, Close(c)) + InQueue(s, CloseWait(c))
    + |Live(s.reqs, c)|
  }

  ghost predicate RefsExact(s: State, c: ConnId)
    requires c in s.conns
  {
    s.conns[c].refs == Holders(s, c)
  }

  /** How far the life of a connection has come. */
  ghost predicate LifeOk(s: State, c: ConnId)
    requires c in s.conns
  {
    var k := s.conns[c];
    && k.recv == (k.issued && k.cbs.state != CsClosed)
    && InQueue(s, Create(c)) == Count(k.issued && !k.registered)
    && (k.registered ==> k.issued) && (k.issued ==> k.dialled)
    && (k.cbs.state != CsWait4Connect ==> k.registered)
    && (k.dialled && k.cbs.state == CsWait4Connect ==> k.cbs.connected)
    && (!k.dialled ==> k.cbs == UNDIALLED)
    && (InQueue(s, Close(c)) + InQueue(s, CloseWait(c)) > 0 ==> k.dialled)
  }

  /** Every blocked `close_conn_wait` has a message in the queue or a post on the semaphore, and holds a reference. */
  ghost predicate WaitOk(s: State, c: ConnId)
    requires c in s.conns
  {
    var k := s.conns[c];
    && k.waiters == InQueue(s, CloseWait(c)) + k.closeSem
    && (k.closeSem > 0 ==> k.cbs.state == CsClosed)
    && k.waiters <= k.clientRefs
  }

  ghost predicate ConnOk(s: State, c: ConnId)
    requires c in s.conns
  {
    Consistent(s.conns[c].cbs) && RefsExact(s, c) && LifeOk(s, c) && WaitOk(s, c)
  }

  // ---------- requests ----------

  /** Who holds references to a send request. */
  ghost predicate ReqRefsExact(s: State, r: ReqId)
    requires r in s.reqs
  {
    var q := s.reqs[r];
    q.refs == Count(q.clientRef) + Count(q.phase == Queued || q.phase == Pending || q.phase == Dropped)
            + InQueue(s, BreakSend(r))
  }

  /** A request is in one place: its message, the pending list of its connection, or nowhere any more. */
  ghost predicate PlaceOk(s: State, r: ReqId)
    requires r in s.reqs && s.reqs[r].conn in s.conns
  {
    var q := s.reqs[r];
    && InQueue(s, SendRequest(r)) == Count(q.phase == Queued)
    && (q.phase == Pending <==> q.conn in s.outgoings && r in s.outgoings[q.conn])
    && (q.phase == Dropped ==> s.conns[q.conn].cbs.state == CsClosed)
  }

  /** The dispatcher has something to say about the request: it was completed, it failed, or it was broken off. */
  predicate Resolved(q: Req)
  {
    q.phase == Done || q.phase == Failed || q.broken
  }

  /** The callback is called once when the request is settled, and with true only when every byte was accepted. */
  ghost predicate ReportOk(q: Req)
  {
    && |q.reports| <= 1
    && (q.reports != [] <==> q.wanted && Resolved(q))
    && (q.sentCb <==> q.wanted && q.reports == [])
    && (q.reports == [true] ==> q.phase == Done)
    && (q.reports == [false] ==> q.phase == Failed || q.broken)
    && (q.phase == Done ==> q.Full() && |q.data| > 0)
    && (q.phase == Queued ==> q.sent == 0)
    && (q.phase == Pending && q.Full() ==> |q.data| == 0)
  }

  ghost predicate ReqOk(s: State, r: ReqId)
    requires r in s.reqs && s.reqs[r].conn in s.conns
  {
    ReqRefsExact(s, r) && PlaceOk(s, r) && ReportOk(s.reqs[r])
  }

  // ---------- the queue ----------

  /** A connection is created before it is closed. */
  ghost predicate CreateFirst(queue: seq<Msg>)
  {
    forall i, j :: 0 <= i < j < |queue| && queue[j].Create? ==>
      queue[i] != Close(queue[j].c) && queue[i] != CloseWait(queue[j].c)
  }

  ghost predicate Inv(s: State)
  {
    && !s.crashed && Wf(s)
    && CreateFirst(s.queue)
    && (forall c :: c in s.conns ==> ConnOk(s, c))
    && (forall r :: r in s.reqs ==> ReqOk(s, r))
  }

  lemma InitialInv(total: uint32, unset: uint32, now: nat)
    ensures Inv(InitialState(total, unset, now))
  {
  }

  // ---------- changes that concern one connection, and at most one of its requests ----------

  predicate ConcernsConn(m: Msg, c: ConnId)
  {
    m == Create(c) || m == Close(c) || m == CloseWait(c)
  }

  predicate ConcernsReq(m: Msg, r: ReqId)
  {
    m == SendRequest(r) || m == BreakSend(r)
  }

  ghost predicate StaysClosed(s: State, s': State, c: ConnId)
  {
    c in s.conns && c in s'.conns && s.conns[c].cbs.state == CsClosed ==> s'.conns[c].cbs.state == CsClosed
  }

  lemma ConnUntouched(s: State, s': State, d: ConnId)
    requires d in s.conns && d in s'.conns && s'.conns[d] == s.conns[d]
    requires forall m :: ConcernsConn(m, d) ==> InQueue(s', m) == InQueue(s, m)
    requires |Live(s'.reqs, d)| == |Live(s.reqs, d)|
    requires ConnOk(s, d)
    ensures ConnOk(s', d)
  {
    assert ConcernsConn(Create(d), d) && ConcernsConn(Close(d), d) && ConcernsConn(CloseWait(d), d);
  }

  lemma ReqUntouched(s: State, s': State, t: ReqId)
    requires ReqKnown(s, t) && t in s'.reqs && s'.reqs[t] == s.reqs[t]
    requires s.reqs[t].conn in s'.conns
    requires forall m :: ConcernsReq(m, t) ==> InQueue(s', m) == InQueue(s, m)
    requires OnList(s', s.reqs[t].conn, t) <==> OnList(s, s.reqs[t].conn, t)
    requires StaysClosed(s, s', s.reqs[t].conn)
    requires ReqOk(s, t)
    ensures ReqOk(s', t)
  {
    assert ConcernsReq(SendRequest(t), t) && ConcernsReq(BreakSend(t), t);
  }

  /** Only the connection `c` changed, and only messages about it came or went. */
  ghost predicate ConnMoved(s: State, s': State, c: ConnId)
  {
    && c in s'.conns && s'.conns == s.conns[c := s'.conns[c]]
    && s'.reqs == s.reqs && s'.outgoings == s.outgoings && s'.crashed == s.crashed
    && (forall m :: !ConcernsConn(m, c) ==> InQueue(s', m) == InQueue(s, m))
    && StaysClosed(s, s', c)
  }

  lemma OtherConnAfterConnChange(s: State, s': State, c: ConnId, d: ConnId)
    requires ConnMoved(s, s', c) && d != c && d in s.conns && ConnOk(s, d)
    ensures ConnOk(s', d)
  {
    ConnUntouched(s, s', d);
  }

  lemma ReqAfterConnChange(s: State, s': State, c: ConnId, t: ReqId)
    requires ConnMoved(s, s', c) && ReqKnown(s, t) && ReqOk(s, t)
    ensures ReqKnown(s', t) && ReqOk(s', t)
  {
    ReqUntouched(s, s', t);
  }

  lemma ListAfterConnChange(s: State, s': State, c: ConnId, d: ConnId)
    requires ConnMoved(s, s', c) && d in s.outgoings && ListKnown(s, d, s.outgoings[d])
    ensures ListKnown(s', d, s'.outgoings[d])
  {
  }

  lemma RestAfterConnChange(s: State, s': State, c: ConnId)
    requires Inv(s) && ConnMoved(s, s', c)
    ensures forall t :: t in s'.reqs ==> ReqKnown(s', t) && ReqOk(s', t)
    ensures forall d :: d in s'.outgoings ==> ListKnown(s', d, s'.outgoings[d])
  {
    forall t | t in s'.reqs
      ensures ReqKnown(s', t) && ReqOk(s', t)
    {
      ReqAfterConnChange(s, s', c, t);
    }
    forall d | d in s'.outgoings
      ensures ListKnown(s', d, s'.outgoings[d])
    {
      ListAfterConnChange(s, s', c, d);
    }
  }

  lemma ConnChange(s: State, s': State, c: ConnId)
    requires Inv(s) && ConnMoved(s, s', c)
    requires forall i :: 0 <= i < |s'.queue| ==> Known(s', s'.queue[i])
    requires CreateFirst(s'.queue)
    requires ConnOk(s', c)
    ensures Inv(s')
  {
    RestAfterConnChange(s, s', c);
    forall d | d in s'.conns
      ensures ConnOk(s', d)
    {
      if d != c {
        OtherConnAfterConnChange(s, s', c, d);
      }
    }
  }

  lemma LiveElsewhere(reqs: map<ReqId, Req>, r: ReqId, q: Req, d: ConnId)
    requires q.conn != d && (r in reqs ==> reqs[r].conn != d)
    ensures Live(reqs[r := q], d) == Live(reqs, d)
  {
  }

  lemma LiveHere(reqs: map<ReqId, Req>, r: ReqId, q: Req)
    requires r in reqs ==> reqs[r].conn == q.conn
    ensures |Live(reqs[r := q], q.conn)|
         == |Live(reqs, q.conn)| - Count(r in reqs && reqs[r].refs > 0) + Count(q.refs > 0)
  {
    var before, after := Live(reqs, q.conn), Live(reqs[r := q], q.conn);
    SizeWithout(before, r);
    SizeWithout(after, r);
    assert before - {r} == after - {r};
  }

  lemma SizeWithout<T>(s: set<T>, x: T)
    ensures |s| == |s - {x}| + Count(x in s)
  {
  }

  predicate OnList(s: State, c: ConnId, r: ReqId)
  {
    c in s.outgoings && r in s.outgoings[c]
  }

  /** The pending lists differ at most in whether `r` is on the list of `c`. */
  ghost predicate ListsMoved(s: State, s': State, c: ConnId, r: ReqId)
  {
    && (forall d :: d != c ==> (d in s'.outgoings <==> d in s.outgoings))
    && (forall d :: d != c && d in s.outgoings ==> s'.outgoings[d] == s.outgoings[d])
    && (c in s'.outgoings ==> ListKnown(s', c, s'.outgoings[c]))
    && (forall t :: t != r ==> (OnList(s', c, t) <==> OnList(s, c, t)))
  }

  /** Only the request `r` and its connection `c` changed. */
  ghost predicate ReqMoved(s: State, s': State, c: ConnId, r: ReqId)
  {
    && c in s'.conns && c in s.conns && s'.conns == s.conns[c := s'.conns[c]]
    && r in s'.reqs && s'.reqs == s.reqs[r := s'.reqs[r]] && s'.crashed == s.crashed
    && s'.reqs[r].conn == c && (r in s.reqs ==> s.reqs[r].conn == c)
    && (forall m :: !ConcernsConn(m, c) && !ConcernsReq(m, r) ==> InQueue(s', m) == InQueue(s, m))
    && ListsMoved(s, s', c, r) && StaysClosed(s, s', c)
  }

  lemma OtherConnAfterReqChange(s: State, s': State, c: ConnId, r: ReqId, d: ConnId)
    requires ReqMoved(s, s', c, r) && d != c && d in s.conns && ConnOk(s, d)
    ensures ConnOk(s', d)
  {
    LiveElsewhere(s.reqs, r, s'.reqs[r], d);
    ConnUntouched(s, s', d);
  }

  lemma OtherReqAfterReqChange(s: State, s': State, c: ConnId, r: ReqId, t: ReqId)
    requires ReqMoved(s, s', c, r) && t != r && ReqKnown(s, t) && ReqOk(s, t)
    ensures ReqKnown(s', t) && ReqOk(s', t)
  {
    forall m | ConcernsReq(m, t)
      ensures InQueue(s', m) == InQueue(s, m)
    {
      assert !ConcernsConn(m, c) && !ConcernsReq(m, r);
    }
    ReqUntouched(s, s', t);
  }

  lemma OtherListAfterReqChange(s: State, s': State, c: ConnId, r: ReqId, d: ConnId)
    requires ReqMoved(s, s', c, r) && d != c && d in s.outgoings && ListKnown(s, d, s.outgoings[d])
    ensures d in s'.outgoings && ListKnown(s', d, s'.outgoings[d])
  {
  }

  lemma ConnsAfterReqChange(s: State, s': State, c: ConnId, r: ReqId)
    requires ReqMoved(s, s', c, r) && ConnOk(s', c)
    requires forall d :: d in s.conns ==> ConnOk(s, d)
    ensures forall d :: d in s'.conns ==> ConnOk(s', d)
  {
    forall d | d in s'.conns
      ensures ConnOk(s', d)
    {
      if d != c {
        OtherConnAfterReqChange(s, s', c, r, d);
      }
    }
  }

  lemma ReqsAfterReqChange(s: State, s': State, c: ConnId, r: ReqId)
    requires ReqMoved(s, s', c, r) && ReqKnown(s', r) && ReqOk(s', r)
    requires forall t :: t in s.reqs ==> ReqKnown(s, t) && ReqOk(s, t)
    ensures forall t :: t in s'.reqs ==> ReqKnown(s', t) && ReqOk(s', t)
  {
    forall t | t in s'.reqs
      ensures ReqKnown(s', t) && ReqOk(s', t)
    {
      if t != r {
        OtherReqAfterReqChange(s, s', c, r, t);
      }
    }
  }

  lemma ListsAfterReqChange(s: State, s': State, c: ConnId, r: ReqId)
    requires ReqMoved(s, s', c, r)
    requires forall d :: d in s.outgoings ==> ListKnown(s, d, s.outgoings[d])
    ensures forall d :: d in s'.outgoings ==> ListKnown(s', d, s'.outgoings[d])
  {
    forall d | d in s'.outgoings
      ensures ListKnown(s', d, s'.outgoings[d])
    {
      if d != c {
        OtherListAfterReqChange(s, s', c, r, d);
      }
    }
  }

  lemma ReqChange(s: State, s': State, c: ConnId, r: ReqId)
    requires Inv(s) && ReqMoved(s, s', c, r)
    requires forall i :: 0 <= i < |s'.queue| ==> Known(s', s'.queue[i])
    requires CreateFirst(s'.queue)
    requires ConnOk(s', c)
    requires ReqKnown(s', r) && ReqOk(s', r)
    ensures Inv(s')
  {
    ConnsAfterReqChange(s, s', c, r);
    ReqsAfterReqChange(s, s', c, r);
    ListsAfterReqChange(s, s', c, r);
    InvAgain(s');
  }

  lemma InvAgain(s: State)
    requires !s.crashed && CreateFirst(s.queue) && forall i :: 0 <= i < |s.queue| ==> Known(s, s.queue[i])
    requires forall c :: c in s.conns ==> ConnOk(s, c)
    requires forall t :: t in s.reqs ==> ReqKnown(s, t) && ReqOk(s, t)
    requires forall c :: c in s.outgoings ==> ListKnown(s, c, s.outgoings[c])
    ensures Inv(s)
  {
  }
}

/** Every step keeps the wires in order, as long as the kernel gives no room in the middle of a walk. */
module WireStepProofs {
  import opened CallbackProtocol
  import opened DispatcherInvariant
  import opened DispatcherState
  import opened Ids
  import opened ThreadStepProofs
  import opened WireOrderProofs

  // ---------- steps that leave the wires alone ----------

  predicate SimilarReq(q: Req, q': Req)
  {
    q' == q.(refs := q'.refs, clientRef := q'.clientRef, sentCb := q'.sentCb, broken := q'.broken, reports := q'.reports)
  }

  ghost predicate SimilarReqs(reqs: map<ReqId, Req>, reqs': map<ReqId, Req>)
  {
    reqs'.Keys == reqs.Keys && forall r :: r in reqs ==> SimilarReq(reqs[r], reqs'[r])
  }

  predicate SameWire(k: Conn, k': Conn)
  {
    k'.calls == k.calls && k'.order == k.order && k'.wire == k.wire && k'.doneLog == k.doneLog
    && (k.sock.dead ==> k'.sock.dead)
  }

  lemma {:induction false} OnTheWaySimilar(queue: seq<Msg>, reqs: map<ReqId, Req>, reqs': map<ReqId, Req>, c: ConnId)
    requires forall r :: r in reqs ==> r in reqs' && reqs'[r].conn == reqs[r].conn
    requires forall i :: 0 <= i < |queue| && queue[i].SendRequest? ==> queue[i].r in reqs
    ensures OnTheWay(queue, reqs', c) == OnTheWay(queue, reqs, c)
  {
    if |queue| > 0 {
      OnTheWaySimilar(queue[..|queue| - 1], reqs, reqs', c);
    }
  }

  lemma {:induction false} OnTheWayPops(queue: seq<Msg>, reqs: map<ReqId, Req>, c: ConnId)
    requires |queue| > 0
    ensures OnTheWay(queue, reqs, c)
         == (if queue[0].SendRequest? && queue[0].r in reqs && reqs[queue[0].r].conn == c then [queue[0].r] else [])
          + OnTheWay(queue[1..], reqs, c)
  {
    if |queue| == 1 {
      assert queue[..0] == [] && queue[1..] == [];
    } else {
      OnTheWayPops(queue[..|queue| - 1], reqs, c);
      assert queue[1..][..|queue[1..]| - 1] == queue[..|queue| - 1][1..];
    }
  }

  lemma OnTheWayPushes(queue: seq<Msg>, m: Msg, reqs: map<ReqId, Req>, c: ConnId)
    ensures OnTheWay(queue + [m], reqs, c)
         == OnTheWay(queue, reqs, c) + if m.SendRequest? && m.r in reqs && reqs[m.r].conn == c then [m.r] else []
  {
    assert (queue + [m])[..|queue|] == queue;
  }

  /** The queue stays, gains one message or loses one, none of them a send request. */
  ghost predicate QuietQueue(queue: seq<Msg>, queue': seq<Msg>)
  {
    || queue' == queue
    || (|queue'| > 0 && queue' == queue + [queue'[|queue'| - 1]] && !queue'[|queue'| - 1].SendRequest?)
    || (|queue| > 0 && queue' == queue[1..] && !queue[0].SendRequest?)
  }

  lemma QuietQueueKeepsTheWay(s: State, s': State, c: ConnId)
    requires QuietQueue(s.queue, s'.queue) && SimilarReqs(s.reqs, s'.reqs)
    requires forall i :: 0 <= i < |s.queue| ==> Known(s, s.queue[i])
    ensures OnTheWay(s'.queue, s'.reqs, c) == OnTheWay(s.queue, s.reqs, c)
  {
    forall i | 0 <= i < |s.queue| && s.queue[i].SendRequest?
      ensures s.queue[i].r in s.reqs
    {
      assert Known(s, s.queue[i]);
    }
    OnTheWaySimilar(s.queue, s.reqs, s'.reqs, c);
    if |s'.queue| > 0 {
      OnTheWayPushes(s.queue, s'.queue[|s'.queue| - 1], s'.reqs, c);
    }
    if |s.queue| > 0 {
      OnTheWayPops(s.queue, s'.reqs, c);
    }
  }

  /** Steps in which nothing is sent, requested or taken from the queue to be sent. */
  ghost predicate QuietStep(s: State, s': State)
  {
    && SimilarReqs(s.reqs, s'.reqs) && s'.outgoings == s.outgoings
    && QuietQueue(s.queue, s'.queue)
    && (forall c :: c in s.conns ==> c in s'.conns && SameWire(s.conns[c], s'.conns[c]))
    && (forall c :: c in s'.conns && c !in s.conns ==> SameWire(NewConn(UNDIALLED, 0, false, IDLE_SOCK, TwoCall, false, false), s'.conns[c]))
  }

  lemma QuietPlaces(s: State, s': State, c: ConnId)
    requires c in s.conns && c in s'.conns && s'.conns[c].order == s.conns[c].order
    requires SimilarReqs(s.reqs, s'.reqs) && Places(s, c)
    ensures Places(s', c)
  {
  }

  lemma QuietSorted(s: State, s': State, c: ConnId)
    requires SimilarReqs(s.reqs, s'.reqs) && s'.outgoings == s.outgoings && Sorted(s, c)
    ensures Sorted(s', c)
  {
  }

  lemma QuietWire(s: State, s': State, c: ConnId)
    requires Inv(s) && QuietStep(s, s') && c in s.conns && WireOk(s, c)
    ensures c in s'.conns && WireOk(s', c)
  {
    var order := s.conns[c].order;
    assert SameWire(s.conns[c], s'.conns[c]);
    QuietPlaces(s, s', c);
    QuietSorted(s, s', c);
    SentUnchanged(s.reqs, s'.reqs, order);
    QuietQueueKeepsTheWay(s, s', c);
    forall i | 0 <= i < |order|
      ensures SimilarReq(s.reqs[order[i]], s'.reqs[order[i]])
    {
    }
  }

  lemma NothingOnTheWay(queue: seq<Msg>, reqs: map<ReqId, Req>, c: ConnId)
    requires forall r :: r in reqs ==> reqs[r].conn != c
    ensures OnTheWay(queue, reqs, c) == []
  {
  }

  /** A connection nobody has sent anything on has an empty wire. */
  lemma EmptyWire(s: State, c: ConnId)
    requires c in s.conns && SameWire(NewConn(UNDIALLED, 0, false, IDLE_SOCK, TwoCall, false, false), s.conns[c])
    requires forall r :: r in s.reqs ==> s.reqs[r].conn != c
    requires c !in s.outgoings
    ensures WireOk(s, c)
  {
    NothingOnTheWay(s.queue, s.reqs, c);
  }

  lemma NobodyAsked(s: State, c: ConnId)
    requires Inv(s) && c !in s.conns
    ensures forall r :: r in s.reqs ==> s.reqs[r].conn != c
    ensures c !in s.outgoings
  {
    forall r | r in s.reqs
      ensures s.reqs[r].conn != c
    {
      assert ReqKnown(s, r);
    }
    forall d | d in s.outgoings
      ensures d in s.conns
    {
      assert ListKnown(s, d, s.outgoings[d]);
    }
  }

  lemma NewWire(s: State, s': State, c: ConnId)
    requires Inv(s) && QuietStep(s, s') && c !in s.conns && c in s'.conns
    ensures WireOk(s', c)
  {
    NobodyAsked(s, c);
    forall r | r in s'.reqs
      ensures s'.reqs[r].conn != c
    {
      assert SimilarReq(s.reqs[r], s'.reqs[r]);
    }
    EmptyWire(s', c);
  }

  lemma QuietStepKeepsTheWires(s: State, s': State)
    requires Inv(s) && AllWiresOk(s) && QuietStep(s, s')
    ensures AllWiresOk(s')
  {
    forall c | c in s'.conns
      ensures WireOk(s', c)
    {
      if c in s.conns {
        QuietWire(s, s', c);
      } else {
        NewWire(s, s', c);
      }
    }
  }

  // ---------- send calls and the messages they post ----------

  /** The requests of a connection, its list and its wire are as before; new requests are on their way. */
  ghost predicate SameForWire(s: State, s': State, d: ConnId)
  {
    && d in s.conns && d in s'.conns && SameWire(s.conns[d].(calls := s'.conns[d].calls), s'.conns[d])
    && (forall t :: t in s.reqs && s.reqs[t].conn == d ==> t in s'.reqs && s'.reqs[t] == s.reqs[t])
    && (forall t :: t in s'.reqs && s'.reqs[t].conn == d && s'.reqs[t].phase != Queued ==> t in s.reqs && s'.reqs[t] == s.reqs[t])
    && (d in s'.outgoings ==> d in s.outgoings && s'.outgoings[d] == s.outgoings[d])
  }

  lemma WireElsewhere(s: State, s': State, d: ConnId)
    requires SameForWire(s, s', d) && WireOk(s, d)
    requires d in s.outgoings ==> ListKnown(s, d, s.outgoings[d])
    requires s'.conns[d].calls == s'.conns[d].order + OnTheWay(s'.queue, s'.reqs, d)
    ensures WireOk(s', d)
  {
    var order := s.conns[d].order;
    forall i | 0 <= i < |order|
      ensures order[i] in s'.reqs && s'.reqs[order[i]] == s.reqs[order[i]]
    {
      assert s.reqs[order[i]].conn == d;
    }
    SentUnchanged(s.reqs, s'.reqs, order);
  }

  /** Sending posts one new request behind everything else. */
  ghost predicate SendStep(s: State, s': State, c: ConnId, r: ReqId)
  {
    && c in s.conns && r !in s.reqs && r in s'.reqs
    && s'.queue == s.queue + [SendRequest(r)] && s'.outgoings == s.outgoings
    && s'.reqs == s.reqs[r := s'.reqs[r]] && s'.reqs[r].conn == c && s'.reqs[r].phase == Queued
    && s'.conns == s.conns[c := s.conns[c].(refs := s.conns[c].refs + 1, calls := s.conns[c].calls + [r])]
  }

  lemma SendWay(s: State, s': State, c: ConnId, r: ReqId, d: ConnId)
    requires SendStep(s, s', c, r)
    requires forall i :: 0 <= i < |s.queue| ==> Known(s, s.queue[i])
    ensures OnTheWay(s'.queue, s'.reqs, d) == OnTheWay(s.queue, s.reqs, d) + if d == c then [r] else []
  {
    forall i | 0 <= i < |s.queue| && s.queue[i].SendRequest?
      ensures s.queue[i].r in s.reqs
    {
      assert Known(s, s.queue[i]);
    }
    OnTheWayPushes(s.queue, SendRequest(r), s'.reqs, d);
    OnTheWaySimilar(s.queue, s.reqs, s'.reqs, d);
  }

  lemma SendWire(s: State, s': State, c: ConnId, r: ReqId, d: ConnId)
    requires SendStep(s, s', c, r) && d in s.conns && WireOk(s, d)
    requires OnTheWay(s'.queue, s'.reqs, d) == OnTheWay(s.queue, s.reqs, d) + if d == c then [r] else []
    requires d in s.outgoings ==> ListKnown(s, d, s.outgoings[d])
    ensures WireOk(s', d)
  {
    SendCalls(s.conns[d].order, OnTheWay(s.queue, s.reqs, d), r);
    SentElsewhere(s, s', c, r, d);
    WireElsewhere(s, s', d);
  }

  lemma SendCalls(order: seq<ReqId>, way: seq<ReqId>, r: ReqId)
    ensures order + (way + [r]) == order + way + [r]
    ensures order + (way + []) == order + way
  {
    assert way + [] == way;
  }

  lemma SentElsewhere(s: State, s': State, c: ConnId, r: ReqId, d: ConnId)
    requires SendStep(s, s', c, r) && d in s.conns
    ensures SameForWire(s, s', d)
  {
  }

  lemma SendWires(s: State, s': State, c: ConnId, r: ReqId)
    requires Wf(s) && AllWiresOk(s) && SendStep(s, s', c, r)
    ensures AllWiresOk(s')
  {
    forall d | d in s'.conns
      ensures WireOk(s', d)
    {
      SendWay(s, s', c, r, d);
      SendWire(s, s', c, r, d);
    }
  }

  /** The dispatcher takes a request from the queue. */
  ghost predicate EnlistStep(s: State, s': State, c: ConnId, r: ReqId)
  {
    && c in s.conns && r in s.reqs && r in s'.reqs && s.reqs[r].conn == c
    && s.reqs[r].phase == Queued && s.reqs[r].sent == 0
    && s.queue == [SendRequest(r)] + s'.queue
    && s'.reqs == s.reqs[r := s'.reqs[r]]
    && s'.reqs[r] == s.reqs[r].(phase := s'.reqs[r].phase, pos := |s.conns[c].order|)
    && s'.conns == s.conns[c := s.conns[c].(order := s.conns[c].order + [r])]
    && (|| (s'.reqs[r].phase == Dropped && s'.outgoings == s.outgoings)
        || (s'.reqs[r].phase == Pending
            && s'.outgoings == s.outgoings[c := (if c in s.outgoings then s.outgoings[c] else []) + [r]]))
  }

  lemma EnlistedIsEnlistStep(s: State, r: ReqId)
    requires ReqKnown(s, r) && |s.queue| > 0 && s.queue[0] == SendRequest(r)
    requires s.reqs[r].phase == Queued && s.reqs[r].sent == 0
    ensures EnlistStep(s, PopMessage(s), s.reqs[r].conn, r)
  {
    assert s.queue == [s.queue[0]] + s.queue[1..];
  }

  lemma EnlistedWay(s: State, s': State, c: ConnId, r: ReqId, d: ConnId)
    requires EnlistStep(s, s', c, r)
    requires forall i :: 0 <= i < |s'.queue| ==> Known(s', s'.queue[i])
    ensures OnTheWay(s.queue, s.reqs, d) == (if c == d then [r] else []) + OnTheWay(s'.queue, s'.reqs, d)
  {
    forall i | 0 <= i < |s'.queue| && s'.queue[i].SendRequest?
      ensures s'.queue[i].r in s.reqs
    {
      assert Known(s', s'.queue[i]);
    }
    assert s.queue[1..] == s'.queue;
    OnTheWayPops(s.queue, s.reqs, d);
    OnTheWaySimilar(s'.queue, s.reqs, s'.reqs, d);
  }

  lemma EnlistedPlaces(s: State, s': State, c: ConnId, r: ReqId)
    requires EnlistStep(s, s', c, r) && Places(s, c)
    requires AllIn(s'.reqs, s.conns[c].order + [r])
    ensures Places(s', c)
  {
  }

  lemma EnlistedSorted(s: State, s': State, c: ConnId, r: ReqId)
    requires EnlistStep(s, s', c, r) && Places(s, c) && Sorted(s, c)
    requires c in s.outgoings ==> ListKnown(s, c, s.outgoings[c])
    ensures Sorted(s', c)
  {
    if c in s.outgoings {
      forall a | 0 <= a < |s.outgoings[c]|
        ensures s'.reqs[s.outgoings[c][a]] == s.reqs[s.outgoings[c][a]]
        ensures s.reqs[s.outgoings[c][a]].pos < |s.conns[c].order|
      {
      }
    }
  }

  lemma EnlistedSent(s: State, s': State, c: ConnId, r: ReqId)
    requires EnlistStep(s, s', c, r) && Places(s, c)
    ensures var order := s.conns[c].order;
            && AllIn(s'.reqs, order + [r])
            && Sent(s'.reqs, order + [r]) == Sent(s.reqs, order)
            && Finished(s'.reqs, order + [r]) == Finished(s.reqs, order)
  {
    var order := s.conns[c].order;
    forall i | 0 <= i < |order|
      ensures s'.reqs[order[i]] == s.reqs[order[i]]
    {
    }
    SentUnchanged(s.reqs, s'.reqs, order);
    assert (order + [r])[..|order|] == order;
    assert s'.reqs[r].data[..0] == [];
  }

  lemma EnlistedOneByOne(s: State, s': State, c: ConnId, r: ReqId)
    requires EnlistStep(s, s', c, r) && Places(s, c) && OneByOne(s.reqs, s.conns[c].order)
    requires AllIn(s'.reqs, s.conns[c].order + [r])
    ensures OneByOne(s'.reqs, s.conns[c].order + [r])
  {
    var order := s.conns[c].order;
    forall i | 0 <= i < |order|
      ensures s'.reqs[order[i]] == s.reqs[order[i]]
    {
    }
  }

  lemma EnlistedEnds(s: State, s': State, c: ConnId, r: ReqId)
    requires EnlistStep(s, s', c, r) && Places(s, c) && EndsOk(s, c)
    requires AllIn(s'.reqs, s'.conns[c].order)
    ensures EndsOk(s', c)
  {
    var order := s.conns[c].order;
    forall i | 0 <= i < |order|
      ensures s'.reqs[order[i]] == s.reqs[order[i]]
    {
    }
  }

  lemma EnlistedLogs(s: State, s': State, c: ConnId, r: ReqId)
    requires EnlistStep(s, s', c, r) && Places(s, c) && LogsOk(s, c)
    requires AllIn(s'.reqs, s'.conns[c].order)
    requires OnTheWay(s.queue, s.reqs, c) == [r] + OnTheWay(s'.queue, s'.reqs, c)
    ensures LogsOk(s', c)
  {
    var order := s.conns[c].order;
    EnlistedSent(s, s', c, r);
    assert order + [r] + OnTheWay(s'.queue, s'.reqs, c) == order + ([r] + OnTheWay(s'.queue, s'.reqs, c));
  }

  lemma EnlistedShape(s: State, s': State, c: ConnId, r: ReqId)
    requires EnlistStep(s, s', c, r) && ShapeOk(s, c)
    requires c in s.outgoings ==> ListKnown(s, c, s.outgoings[c])
    ensures ShapeOk(s', c)
  {
    EnlistedSent(s, s', c, r);
    EnlistedPlaces(s, s', c, r);
    EnlistedSorted(s, s', c, r);
    EnlistedOneByOne(s, s', c, r);
  }

  lemma EnlistedHere(s: State, s': State, c: ConnId, r: ReqId)
    requires EnlistStep(s, s', c, r) && WireOk(s, c)
    requires c in s.outgoings ==> ListKnown(s, c, s.outgoings[c])
    requires OnTheWay(s.queue, s.reqs, c) == [r] + OnTheWay(s'.queue, s'.reqs, c)
    ensures WireOk(s', c)
  {
    EnlistedShape(s, s', c, r);
    EnlistedLogs(s, s', c, r);
    EnlistedEnds(s, s', c, r);
  }

  lemma EnlistedWire(s: State, s': State, c: ConnId, r: ReqId, d: ConnId)
    requires EnlistStep(s, s', c, r) && d in s.conns && d in s'.conns && WireOk(s, d)
    requires d in s.outgoings ==> ListKnown(s, d, s.outgoings[d])
    requires forall i :: 0 <= i < |s'.queue| ==> Known(s', s'.queue[i])
    ensures WireOk(s', d)
  {
    EnlistedWay(s, s', c, r, d);
    if d == c {
      EnlistedHere(s, s', c, r);
    } else {
      assert [] + OnTheWay(s'.queue, s'.reqs, d) == OnTheWay(s'.queue, s'.reqs, d);
      WireElsewhere(s, s', d);
    }
  }

  lemma EnlistedWires(s: State, s': State, c: ConnId, r: ReqId)
    requires Wf(s) && AllWiresOk(s) && EnlistStep(s, s', c, r) && Wf(s')
    ensures AllWiresOk(s')
  {
    forall d | d in s'.conns
      ensures WireOk(s', d)
    {
      EnlistedWire(s, s', c, r, d);
    }
  }
}

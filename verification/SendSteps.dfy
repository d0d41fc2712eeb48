/** The walks over the pending lists keep the dispatcher's invariant. */
module SendStepProofs {
  import opened Bandwidth
  import opened CallbackProtocol
  import opened ClientStepProofs
  import opened Clock
  import opened DispatcherInvariant
  import opened DispatcherState
  import opened DispatcherSteps
  import opened Ids
  import opened ThreadStepProofs

  // ---------- what one do_send changes ----------

  /** The fields of a connection and of a request that sending never touches. */
  predicate SameConnBooks(k: Conn, k': Conn)
  {
    k' == k.(refs := k'.refs, sock := k'.sock, wire := k'.wire, log := k'.log, doneLog := k'.doneLog)
  }

  /** How a pending request comes out of `do_send`. */
  predicate ReqOutcome(q: Req, q': Req, done: bool)
  {
    if !done then q' == q.(sent := q'.sent) && q.sent <= q'.sent <= |q.data| && (q'.sent == |q.data| ==> q' == q)
    else if q'.phase == Dropped then q' == q.(phase := Dropped)
    else if q'.phase == Failed then q' == q.Reported(false).(phase := Failed, refs := q.refs - 1)
    else q' == q.Reported(true).(phase := Done, sent := |q.data|, refs := q.refs - 1) && q.sent < |q.data|
  }

  /** What one `do_send` on request `r` of connection `c` does to the objects. */
  ghost predicate Outcome(s: State, s': State, c: ConnId, r: ReqId, done: bool)
    requires ReqKnown(s, r) && c == s.reqs[r].conn
  {
    && c in s'.conns && r in s'.reqs
    && s' == s.(conns := s.conns[c := s'.conns[c]], reqs := s.reqs[r := s'.reqs[r]], bws := s'.bws, now := s'.now)
    && SameConnBooks(s.conns[c], s'.conns[c])
    && ReqOutcome(s.reqs[r], s'.reqs[r], done)
    && (done && s'.reqs[r].phase == Dropped ==> s.conns[c].cbs.state == CsClosed)
    && s'.conns[c].refs == s.conns[c].refs - Count(done && s'.reqs[r].phase != Dropped && s.reqs[r].refs == 1)
  }

  /** A failed request as one update of the request, of its connection and of the limiter. */
  lemma SendFailedShape(s: State, r: ReqId)
    requires ReqKnown(s, r)
    ensures var s', q, c := SendFailed(s, r), s.reqs[r], s.reqs[r].conn;
            && s' == s.(conns := s'.conns, reqs := s'.reqs, bws := Switched(s.bws, c, false))
            && s'.conns == s.conns[c := s.conns[c].(refs := s.conns[c].refs - Count(q.refs == 1))]
            && s'.reqs == s.reqs[r := q.Reported(false).(phase := Failed, refs := q.refs - 1)]
  {
    var q := s.reqs[r].Reported(false).(phase := Failed);
    var s0 := SwitchedOff(s, q.conn);
    assert SwitchedOff(WithReq(s, r, q), q.conn) == WithReq(s0, r, q);
    UnrefShape2(s0, SendFailed(s, r), r, q);
  }

  lemma SendFailedOutcome(s: State, r: ReqId)
    requires ReqKnown(s, r) && s.reqs[r].phase == Pending
    ensures Outcome(s, SendFailed(s, r), s.reqs[r].conn, r, true)
  {
    SendFailedShape(s, r);
  }

  /** `UnrefReq` on a request that has just been rewritten. */
  lemma UnrefShape2(s: State, s': State, r: ReqId, q: Req)
    requires ReqKnown(s, r) && q.conn == s.reqs[r].conn && q.sent <= |q.data|
    requires s' == UnrefReq(WithReq(s, r, q), r)
    ensures s'.reqs == s.reqs[r := q.(refs := q.refs - 1)]
    ensures s'.conns == s.conns[q.conn := s.conns[q.conn].(refs := s.conns[q.conn].refs - Count(q.refs == 1))]
    ensures s' == s.(reqs := s'.reqs, conns := s'.conns)
  {
  }

  lemma BytesTakenOutcome(s: State, r: ReqId, n: nat)
    requires ReqKnown(s, r) && s.reqs[r].phase == Pending
    requires n <= |s.reqs[r].data| - s.reqs[r].sent && n <= s.conns[s.reqs[r].conn].sock.room
    requires n < |s.reqs[r].data| - s.reqs[r].sent
    ensures Outcome(s, BytesTaken(s, r, n), s.reqs[r].conn, r, false)
  {
  }

  /** A completed request as one update of the request and of its connection. */
  predicate CompletesAs(s: State, s': State, r: ReqId)
    requires ReqKnown(s, r)
  {
    var q, c := s.reqs[r], s.reqs[r].conn;
    && s' == s.(conns := s'.conns, reqs := s'.reqs)
    && s'.conns == s.conns[c := s.conns[c].(doneLog := s.conns[c].doneLog + [r], refs := s.conns[c].refs - Count(q.refs == 1))]
    && s'.reqs == s.reqs[r := q.Reported(true).(phase := Done, refs := q.refs - 1)]
  }

  lemma CompletedUpdate(s: State, r: ReqId)
    requires ReqKnown(s, r)
    ensures CompletesAs(s, Completed(s, r), r)
  {
    var q, c := s.reqs[r].Reported(true).(phase := Done), s.reqs[r].conn;
    var s1 := WithConn(s, c, s.conns[c].(doneLog := s.conns[c].doneLog + [r]));
    UnrefShape2(s1, Completed(s, r), r, q);
    UpdateTwice(s.conns, c, s1.conns[c], Completed(s, r).conns[c]);
  }

  /** An update of one connection, one request and the limiter. */
  predicate Updated(s: State, s': State, c: ConnId, r: ReqId)
  {
    && c in s'.conns && r in s'.reqs
    && s' == s.(conns := s.conns[c := s'.conns[c]], reqs := s.reqs[r := s'.reqs[r]], bws := s'.bws)
  }

  lemma UpdatedTwice(s: State, s1: State, s2: State, c: ConnId, r: ReqId)
    requires Updated(s, s1, c, r) && Updated(s1, s2, c, r)
    ensures Updated(s, s2, c, r)
  {
    UpdateTwice(s.conns, c, s1.conns[c], s2.conns[c]);
    UpdateTwice(s.reqs, r, s1.reqs[r], s2.reqs[r]);
  }

  /** `n` bytes taken as one update of the request, its connection and the limiter. */
  predicate TakesAs(s: State, s': State, r: ReqId, n: nat)
    requires ReqKnown(s, r) && n <= |s.reqs[r].data| - s.reqs[r].sent && n <= s.conns[s.reqs[r].conn].sock.room
  {
    var q, c := s.reqs[r], s.reqs[r].conn;
    && Updated(s, s', c, r) && s'.reqs[r] == q.(sent := q.sent + n)
    && s'.conns[c] == s.conns[c].(sock := s.conns[c].sock.(room := s.conns[c].sock.room - n),
                                  wire := s.conns[c].wire + q.data[q.sent..q.sent + n],
                                  log := s.conns[c].log + [Taken(OfMs(s.now), n, s.bws.maxBw > 0)])
  }

  lemma BytesTakenUpdates(s: State, r: ReqId, n: nat)
    requires ReqKnown(s, r) && n <= |s.reqs[r].data| - s.reqs[r].sent && n <= s.conns[s.reqs[r].conn].sock.room
    ensures TakesAs(s, BytesTaken(s, r, n), r, n)
  {
  }

  lemma ReportedFull(q: Req, n: nat)
    requires q.sent + n == |q.data|
    ensures q.(sent := q.sent + n).Reported(true).(phase := Done, refs := q.refs - 1)
         == q.Reported(true).(phase := Done, sent := |q.data|, refs := q.refs - 1)
  {
  }

  lemma TakenThenCompleted(s: State, s1: State, s': State, r: ReqId, n: nat)
    requires ReqKnown(s, r) && n == |s.reqs[r].data| - s.reqs[r].sent <= s.conns[s.reqs[r].conn].sock.room
    requires TakesAs(s, s1, r, n) && ReqKnown(s1, r) && CompletesAs(s1, s', r)
    ensures CompletesInto(s, s1, s', r)
  {
    ReportedFull(s.reqs[r], n);
    UpdatedTwice(s, s1, s', s.reqs[r].conn, r);
  }

  /** One update of the request and of its connection, from before the bytes to after the completion. */
  predicate CompletesInto(s: State, s1: State, s': State, r: ReqId)
    requires ReqKnown(s, r) && s.reqs[r].conn in s1.conns
  {
    var c := s.reqs[r].conn;
    && c in s'.conns && s' == s.(conns := s'.conns, reqs := s'.reqs, bws := s1.bws)
    && s'.conns == s.conns[c := s'.conns[c]]
    && s'.conns[c] == s1.conns[c].(doneLog := s.conns[c].doneLog + [r], refs := s.conns[c].refs - Count(s.reqs[r].refs == 1))
    && s'.reqs == s.reqs[r := s.reqs[r].Reported(true).(phase := Done, sent := |s.reqs[r].data|, refs := s.reqs[r].refs - 1)]
  }

  /** The last bytes taken and the request completed. */
  lemma CompletedShape(s: State, r: ReqId, n: nat)
    requires ReqKnown(s, r) && 0 < n == |s.reqs[r].data| - s.reqs[r].sent
    requires n <= s.conns[s.reqs[r].conn].sock.room
    ensures CompletesInto(s, BytesTaken(s, r, n), Completed(BytesTaken(s, r, n), r), r)
  {
    BytesTakenUpdates(s, r, n);
    CompletedUpdate(BytesTaken(s, r, n), r);
    TakenThenCompleted(s, BytesTaken(s, r, n), Completed(BytesTaken(s, r, n), r), r, n);
  }

  lemma UpdateTwice<V>(m: map<nat, V>, k: nat, a: V, b: V)
    ensures m[k := a][k := b] == m[k := b]
  {
  }

  lemma CompletedOutcome(s: State, r: ReqId, n: nat)
    requires ReqKnown(s, r) && s.reqs[r].phase == Pending
    requires 0 < n == |s.reqs[r].data| - s.reqs[r].sent && n <= s.conns[s.reqs[r].conn].sock.room
    ensures Outcome(s, Completed(BytesTaken(s, r, n), r), s.reqs[r].conn, r, true)
  {
    CompletedShape(s, r, n);
  }

  lemma SwitchedOffOutcome(s: State, s': State, c: ConnId, r: ReqId, done: bool)
    requires ReqKnown(s, r) && c == s.reqs[r].conn && Outcome(s, s', c, r, done)
    ensures Outcome(s, SwitchedOff(s', c), c, r, done)
  {
  }

  lemma WorldTurnOutcome(s: State, s': State, r: ReqId, w: World, done: bool)
    requires ReqKnown(s, r) && Outcome(WorldTurn(s, r, w), s', s.reqs[r].conn, r, done)
    ensures Outcome(s, s', s.reqs[r].conn, r, done)
  {
    var c := s.reqs[r].conn;
    assert s'.conns == s.conns[c := s'.conns[c]];
  }

  lemma NothingOutcome(s: State, r: ReqId)
    requires ReqKnown(s, r)
    ensures Outcome(s, s, s.reqs[r].conn, r, false)
    ensures Outcome(s, SwitchedOff(s, s.reqs[r].conn), s.reqs[r].conn, r, false)
  {
    assert s.conns == s.conns[s.reqs[r].conn := s.conns[s.reqs[r].conn]];
    assert s.reqs == s.reqs[r := s.reqs[r]];
  }

  lemma DroppedOutcome(s: State, r: ReqId)
    requires ReqKnown(s, r) && s.conns[s.reqs[r].conn].cbs.state == CsClosed
    ensures Outcome(s, WithReq(s, r, s.reqs[r].(phase := Dropped)), s.reqs[r].conn, r, true)
  {
    assert s.conns == s.conns[s.reqs[r].conn := s.conns[s.reqs[r].conn]];
  }

  lemma TakenOutcome(s: State, r: ReqId, offer: nat, guess: Option<uint32>)
    requires ReqKnown(s, r) && s.reqs[r].phase == Pending
    requires 0 < offer <= |s.reqs[r].data| - s.reqs[r].sent
    requires guess.Some? ==> offer <= guess.value
    requires !s.conns[s.reqs[r].conn].sock.dead && s.conns[s.reqs[r].conn].sock.room > 0
    ensures var out := Answer(s, r, offer, guess); Outcome(s, out.s, s.reqs[r].conn, r, out.done)
  {
    var n := Min(offer, s.conns[s.reqs[r].conn].sock.room);
    if n == |s.reqs[r].data| - s.reqs[r].sent {
      CompletedOutcome(s, r, n);
    } else {
      BytesTakenOutcome(s, r, n);
      SwitchedOffOutcome(s, BytesTaken(s, r, n), s.reqs[r].conn, r, false);
      assert Answer(s, r, offer, guess) == Took(s, r, n, offer, guess);
    }
  }

  lemma AnswerOutcome(s: State, r: ReqId, offer: nat, guess: Option<uint32>)
    requires ReqKnown(s, r) && s.reqs[r].phase == Pending
    requires 0 < offer <= |s.reqs[r].data| - s.reqs[r].sent
    requires guess.Some? ==> offer <= guess.value
    ensures var out := Answer(s, r, offer, guess); Outcome(s, out.s, s.reqs[r].conn, r, out.done)
  {
    var sock := s.conns[s.reqs[r].conn].sock;
    if sock.dead {
      SendFailedOutcome(s, r);
    } else if sock.room == 0 {
      NothingOutcome(s, r);
    } else {
      TakenOutcome(s, r, offer, guess);
    }
  }

  lemma DoSendOutcome(s: State, r: ReqId, guess: Option<uint32>, w: World)
    requires ReqKnown(s, r) && s.reqs[r].phase == Pending
    ensures var out := DoSend(s, r, guess, w); Outcome(s, out.s, s.reqs[r].conn, r, out.done)
  {
    var q := s.reqs[r];
    if s.conns[q.conn].cbs.state == CsClosed {
      DroppedOutcome(s, r);
    } else if Offer(q, guess) == 0 {
      NothingOutcome(s, r);
    } else {
      AskedOutcome(s, r, Offer(q, guess), guess, w);
    }
  }

  lemma AskedOutcome(s: State, r: ReqId, offer: nat, guess: Option<uint32>, w: World)
    requires ReqKnown(s, r) && s.reqs[r].phase == Pending
    requires 0 < offer <= |s.reqs[r].data| - s.reqs[r].sent
    requires guess.Some? ==> offer <= guess.value
    ensures var out := Answer(WorldTurn(s, r, w), r, offer, guess); Outcome(s, out.s, s.reqs[r].conn, r, out.done)
  {
    var s1 := WorldTurn(s, r, w);
    assert s1.reqs == s.reqs;
    AnswerOutcome(s1, r, offer, guess);
    WorldTurnOutcome(s, Answer(s1, r, offer, guess).s, r, w, Answer(s1, r, offer, guess).done);
  }

  // ---------- one attempt keeps the invariant ----------

  /** The books of the request that was sent, once it has left the list when it is done. */
  lemma OutcomeReq(s: State, s': State, c: ConnId, r: ReqId, done: bool, list: seq<ReqId>)
    requires ReqKnown(s, r) && c == s.reqs[r].conn && s.reqs[r].phase == Pending
    requires Outcome(s, s', c, r, done) && ReqOk(s, r)
    requires done ==> r !in list
    requires !done ==> c in s.outgoings && list == s.outgoings[c]
    ensures ReqKnown(s', r) && ReqOk(s'.(outgoings := s.outgoings[c := list]), r)
  {
    ReportedOnce(s.reqs[r], true);
    ReportedOnce(s.reqs[r], false);
  }

  lemma OutcomeConn(s: State, s': State, c: ConnId, r: ReqId, done: bool, lists: map<ConnId, seq<ReqId>>)
    requires ReqKnown(s, r) && c == s.reqs[r].conn && s.reqs[r].phase == Pending
    requires Outcome(s, s', c, r, done) && ReqRefsExact(s, r) && ConnOk(s, c)
    ensures ConnOk(s'.(outgoings := lists), c)
  {
    var s2 := s'.(outgoings := lists);
    LiveHere(s.reqs, r, s'.reqs[r]);
    assert forall m :: InQueue(s2, m) == InQueue(s, m);
    RefsFollowTheRequests(s, s2, c);
  }

  lemma WithoutDistinct<T>(list: seq<T>, i: nat)
    requires i < |list| && (forall a, b :: 0 <= a < b < |list| ==> list[a] != list[b])
    ensures list[i] !in Without(list, i)
    ensures forall t :: t != list[i] ==> (t in Without(list, i) <==> t in list)
    ensures forall a, b :: 0 <= a < b < |Without(list, i)| ==> Without(list, i)[a] != Without(list, i)[b]
    ensures forall a :: 0 <= a < |Without(list, i)| ==> Without(list, i)[a] == list[if a < i then a else a + 1]
  {
    assert list == list[..i] + [list[i]] + list[i + 1..];
  }

  lemma AttemptLists(s: State, s': State, c: ConnId, i: nat, done: bool)
    requires Listed(s, c, i) && ListKnown(s, c, s.outgoings[c])
    requires s.reqs[s.outgoings[c][i]].conn == c && Outcome(s, s', c, s.outgoings[c][i], done)
    ensures var list := if done then Without(s.outgoings[c], i) else s.outgoings[c];
            ListsMoved(s, s'.(outgoings := s.outgoings[c := list]), c, s.outgoings[c][i])
  {
    WithoutDistinct(s.outgoings[c], i);
  }

  lemma OutcomeInv(s: State, s': State, c: ConnId, i: nat, done: bool)
    requires Inv(s) && Listed(s, c, i)
    requires s.reqs[s.outgoings[c][i]].conn == c && Outcome(s, s', c, s.outgoings[c][i], done)
    ensures var list := if done then Without(s.outgoings[c], i) else s.outgoings[c];
            Inv(s'.(outgoings := s.outgoings[c := list]))
  {
    var r := s.outgoings[c][i];
    var list := if done then Without(s.outgoings[c], i) else s.outgoings[c];
    var s2 := s'.(outgoings := s.outgoings[c := list]);
    assert ListKnown(s, c, s.outgoings[c]) && ReqOk(s, r) && ConnOk(s, c);
    WithoutDistinct(s.outgoings[c], i);
    OutcomeReq(s, s', c, r, done, list);
    OutcomeConn(s, s', c, r, done, s2.outgoings);
    AttemptLists(s, s', c, i, done);
    KnownStill(s, s2);
    ReqChange(s, s2, c, r);
  }

  lemma ListedPending(s: State, c: ConnId, i: nat)
    requires Wf(s) && c in s.outgoings && i < |s.outgoings[c]|
    ensures Listed(s, c, i) && s.reqs[s.outgoings[c][i]].conn == c && s.reqs[s.outgoings[c][i]].phase == Pending
    ensures c in s.conns
  {
    assert ListKnown(s, c, s.outgoings[c]);
    assert ReqKnown(s, s.outgoings[c][i]);
  }

  lemma AttemptInv(s: State, c: ConnId, i: nat, guess: Option<uint32>, w: World)
    requires Inv(s) && Listed(s, c, i)
    ensures Inv(Attempt(s, c, i, guess, w).s)
  {
    var r := s.outgoings[c][i];
    ListedPending(s, c, i);
    DoSendOutcome(s, r, guess, w);
    var out := DoSend(s, r, guess, w);
    OutcomeInv(s, out.s, c, i, out.done);
    AttemptState(s, c, i, guess, w);
  }

  lemma AttemptState(s: State, c: ConnId, i: nat, guess: Option<uint32>, w: World)
    requires Listed(s, c, i)
    ensures var out := DoSend(s, s.outgoings[c][i], guess, w);
            var list := if out.done then Without(s.outgoings[c], i) else s.outgoings[c];
            Attempt(s, c, i, guess, w).s == out.s.(outgoings := s.outgoings[c := list])
  {
    assert s.outgoings[c := s.outgoings[c]] == s.outgoings;
  }

  // ---------- walks ----------

  lemma {:induction false} SendListInv(s: State, c: ConnId, i: nat, guess: Option<uint32>, w: World)
    requires Inv(s)
    ensures Inv(SendList(s, c, i, guess, w))
    decreases if c in s.outgoings then |s.outgoings[c]| - i else 0
  {
    if Listed(s, c, i) {
      AttemptInv(s, c, i, guess, w);
      var out := Attempt(s, c, i, guess, w);
      if !out.done {
        SendListInv(out.s, c, i + 1, out.guess, w);
      }
    }
  }

  lemma {:induction false} SendAllInv(s: State, order: seq<ConnId>, limited: bool, w: World)
    requires Inv(s)
    ensures Inv(SendAll(s, order, limited, w))
    decreases |order|
  {
    if |order| > 0 {
      SendListInv(s, order[0], 0, GuessFor(s, order[0], limited), w);
      SendAllInv(SendList(s, order[0], 0, GuessFor(s, order[0], limited), w), order[1..], limited, w);
    }
  }
}

/** What one `do_send` hands to the socket. */
module DeliveryProofs {
  import opened CallbackProtocol
  import opened DispatcherState
  import opened Ids
  import opened SendStepProofs

  /** How many bytes of request `r` its socket takes when it is the request's turn. */
  function Takes(s: State, r: ReqId, guess: Option<uint32>, w: World): nat
    requires ReqKnown(s, r)
  {
    var k := s.conns[s.reqs[r].conn];
    if k.cbs.state == CsClosed || k.sock.dead then 0
    else Min(Offer(s.reqs[r], guess), k.sock.room + w.refill(r))
  }

  /** The limiter and the room left after the bytes have gone. */
  function GuessLeft(guess: Option<uint32>, n: nat): Option<uint32>
    requires guess.Some? ==> n <= guess.value
  {
    if guess.Some? then Some(guess.value - n) else None
  }

  /** Nothing more can go to the socket: it is broken or full, or the guess is used up. */
  predicate Stuck(sock: Sock, guess: Option<uint32>)
  {
    sock.dead || sock.room == 0 || guess == Some(0)
  }

  /** What one `do_send` does to the wire. */
  ghost predicate Delivery(s: State, r: ReqId, guess: Option<uint32>, w: World, out: SendOut)
    requires ReqKnown(s, r) && r in out.s.reqs && s.reqs[r].conn in out.s.conns
  {
    var q, q' := s.reqs[r], out.s.reqs[r];
    var k, k' := s.conns[q.conn], out.s.conns[q.conn];
    var n := Takes(s, r, guess, w);
    && n <= |q.data| - q.sent && (guess.Some? ==> n <= guess.value)
    && q'.sent == q.sent + n
    && k'.wire == k.wire + q.data[q.sent..q.sent + n]
    && k'.doneLog == k.doneLog + (if q'.phase == Done && out.done then [r] else [])
    && k'.sock.dead == k.sock.dead
    && out.guess == GuessLeft(guess, n)
    && (out.done && k.cbs.state != CsClosed ==> q'.phase == if k.sock.dead then Failed else Done)
    && (out.done && k.cbs.state == CsClosed ==> q'.phase == Dropped)
    && (out.done && q'.phase == Done ==> n > 0)
    && (!out.done ==> q'.phase == q.phase && (q.Full() || Stuck(k'.sock, out.guess)))
    && k'.sock.room <= k.sock.room + w.refill(r)
  }

  lemma UnansweredDelivery(s: State, r: ReqId, guess: Option<uint32>, w: World)
    requires ReqKnown(s, r) && s.reqs[r].phase == Pending
    requires s.conns[s.reqs[r].conn].cbs.state == CsClosed || Offer(s.reqs[r], guess) == 0
    ensures Delivery(s, r, guess, w, DoSend(s, r, guess, w))
  {
    var q := s.reqs[r];
    assert q.data[q.sent..q.sent + 0] == [];
    assert s.conns[q.conn].wire + [] == s.conns[q.conn].wire;
  }

  lemma FailedDelivery(s: State, r: ReqId, guess: Option<uint32>, w: World)
    requires ReqKnown(s, r) && s.reqs[r].phase == Pending
    requires s.conns[s.reqs[r].conn].cbs.state != CsClosed && Offer(s.reqs[r], guess) > 0
    requires s.conns[s.reqs[r].conn].sock.dead
    ensures Delivery(s, r, guess, w, DoSend(s, r, guess, w))
  {
    var s1 := WorldTurn(s, r, w);
    var q := s.reqs[r];
    SendFailedShape(s1, r);
    assert q.data[q.sent..q.sent + 0] == [];
    assert s.conns[q.conn].wire + [] == s.conns[q.conn].wire;
  }

  lemma BlockedDelivery(s: State, r: ReqId, guess: Option<uint32>, w: World)
    requires ReqKnown(s, r) && s.reqs[r].phase == Pending
    requires s.conns[s.reqs[r].conn].cbs.state != CsClosed && Offer(s.reqs[r], guess) > 0
    requires !s.conns[s.reqs[r].conn].sock.dead && s.conns[s.reqs[r].conn].sock.room + w.refill(r) == 0
    ensures Delivery(s, r, guess, w, DoSend(s, r, guess, w))
  {
    var q := s.reqs[r];
    assert DoSend(s, r, guess, w) == SendOut(SwitchedOff(WorldTurn(s, r, w), q.conn), guess, false);
    assert q.data[q.sent..q.sent + 0] == [];
    assert s.conns[q.conn].wire + [] == s.conns[q.conn].wire;
  }

  /** The socket is willing to take some of the offer. */
  predicate Willing(s: State, r: ReqId, guess: Option<uint32>, w: World)
    requires ReqKnown(s, r)
  {
    var k := s.conns[s.reqs[r].conn];
    k.cbs.state != CsClosed && Offer(s.reqs[r], guess) > 0 && !k.sock.dead && k.sock.room + w.refill(r) > 0
  }

  /** A willing socket takes what fits. */
  lemma WillingTakes(s: State, r: ReqId, guess: Option<uint32>, w: World)
    requires ReqKnown(s, r) && Willing(s, r, guess, w)
    ensures ReqKnown(WorldTurn(s, r, w), r)
    ensures DoSend(s, r, guess, w)
         == Took(WorldTurn(s, r, w), r, Takes(s, r, guess, w), Offer(s.reqs[r], guess), guess)
  {
    var s1 := WorldTurn(s, r, w);
    assert DoSend(s, r, guess, w) == Answer(s1, r, Offer(s.reqs[r], guess), guess);
  }

  lemma TookAll(s: State, r: ReqId, n: nat, guess: Option<uint32>)
    requires ReqKnown(s, r) && n == |s.reqs[r].data| - s.reqs[r].sent && n <= s.conns[s.reqs[r].conn].sock.room
    requires guess.Some? ==> n <= guess.value
    ensures Took(s, r, n, n, guess) == SendOut(Completed(BytesTaken(s, r, n), r), GuessLeft(guess, n), true)
  {
  }

  lemma LastBytesDelivery(s: State, r: ReqId, guess: Option<uint32>, w: World)
    requires ReqKnown(s, r) && s.reqs[r].phase == Pending && Willing(s, r, guess, w)
    requires Takes(s, r, guess, w) == |s.reqs[r].data| - s.reqs[r].sent
    ensures Delivery(s, r, guess, w, DoSend(s, r, guess, w))
  {
    var n := Takes(s, r, guess, w);
    WillingTakes(s, r, guess, w);
    TookAll(WorldTurn(s, r, w), r, n, guess);
    CompletedShape(WorldTurn(s, r, w), r, n);
  }

  /** `n` bytes went out, fewer than were left. */
  predicate SomeOut(s: State, r: ReqId, n: nat, guess: Option<uint32>, out: SendOut)
    requires ReqKnown(s, r) && n <= |s.reqs[r].data| - s.reqs[r].sent && n <= s.conns[s.reqs[r].conn].sock.room
    requires guess.Some? ==> n <= guess.value
  {
    var q, k := s.reqs[r], s.conns[s.reqs[r].conn];
    && q.conn in out.s.conns && r in out.s.reqs
    && !out.done && out.guess == GuessLeft(guess, n)
    && out.s.reqs[r] == q.(sent := q.sent + n)
    && out.s.conns[q.conn] == k.(wire := k.wire + q.data[q.sent..q.sent + n], log := out.s.conns[q.conn].log,
                                 sock := k.sock.(room := k.sock.room - n))
  }

  lemma TookSome(s: State, r: ReqId, n: nat, offer: nat, guess: Option<uint32>)
    requires ReqKnown(s, r) && n < |s.reqs[r].data| - s.reqs[r].sent && n <= s.conns[s.reqs[r].conn].sock.room
    requires n <= offer <= |s.reqs[r].data| - s.reqs[r].sent && (guess.Some? ==> offer <= guess.value)
    ensures SomeOut(s, r, n, guess, Took(s, r, n, offer, guess))
  {
    var s1 := BytesTaken(s, r, n);
    BytesTakenUpdates(s, r, n);
    assert Took(s, r, n, offer, guess)
        == SendOut(if n < offer then SwitchedOff(s1, s.reqs[r].conn) else s1, GuessLeft(guess, n), false);
  }

  /** The state in which the socket is asked. */
  predicate Asked(s: State, s1: State, r: ReqId, w: World)
    requires ReqKnown(s, r)
  {
    var k := s.conns[s.reqs[r].conn];
    ReqKnown(s1, r) && s1.reqs[r] == s.reqs[r] && s1.conns[s.reqs[r].conn] == k.(sock := k.sock.Refilled(w.refill(r)))
  }

  /** Some bytes went out, and nothing more can. */
  lemma SomeDelivered(s: State, s1: State, r: ReqId, guess: Option<uint32>, w: World, out: SendOut)
    requires ReqKnown(s, r) && s.reqs[r].phase == Pending && Willing(s, r, guess, w)
    requires Takes(s, r, guess, w) < |s.reqs[r].data| - s.reqs[r].sent
    requires Asked(s, s1, r, w) && SomeOut(s1, r, Takes(s, r, guess, w), guess, out)
    ensures Delivery(s, r, guess, w, out)
  {
  }

  lemma SomeAfterTurn(s: State, s1: State, r: ReqId, guess: Option<uint32>, w: World)
    requires ReqKnown(s, r) && s.reqs[r].phase == Pending && Willing(s, r, guess, w)
    requires Takes(s, r, guess, w) < |s.reqs[r].data| - s.reqs[r].sent && Asked(s, s1, r, w)
    ensures Delivery(s, r, guess, w, Took(s1, r, Takes(s, r, guess, w), Offer(s.reqs[r], guess), guess))
  {
    TookSome(s1, r, Takes(s, r, guess, w), Offer(s.reqs[r], guess), guess);
    SomeDelivered(s, s1, r, guess, w, Took(s1, r, Takes(s, r, guess, w), Offer(s.reqs[r], guess), guess));
  }

  lemma SomeBytesDelivery(s: State, r: ReqId, guess: Option<uint32>, w: World)
    requires ReqKnown(s, r) && s.reqs[r].phase == Pending && Willing(s, r, guess, w)
    requires Takes(s, r, guess, w) < |s.reqs[r].data| - s.reqs[r].sent
    ensures Delivery(s, r, guess, w, DoSend(s, r, guess, w))
  {
    WillingTakes(s, r, guess, w);
    SomeAfterTurn(s, WorldTurn(s, r, w), r, guess, w);
  }

  lemma DoSendDelivery(s: State, r: ReqId, guess: Option<uint32>, w: World)
    requires ReqKnown(s, r) && s.reqs[r].phase == Pending
    ensures Delivery(s, r, guess, w, DoSend(s, r, guess, w))
  {
    var k := s.conns[s.reqs[r].conn];
    if k.cbs.state == CsClosed || Offer(s.reqs[r], guess) == 0 {
      UnansweredDelivery(s, r, guess, w);
    } else if k.sock.dead {
      FailedDelivery(s, r, guess, w);
    } else if k.sock.room + w.refill(r) == 0 {
      BlockedDelivery(s, r, guess, w);
    } else if Takes(s, r, guess, w) == |s.reqs[r].data| - s.reqs[r].sent {
      LastBytesDelivery(s, r, guess, w);
    } else {
      SomeBytesDelivery(s, r, guess, w);
    }
  }
}

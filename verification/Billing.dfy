/** What one `do_send` tells the limiter, and what it does to the socket and the clock. */
module BillingProofs {
  import opened Bandwidth
  import opened CallbackProtocol
  import opened Clock
  import opened DeliveryProofs
  import opened DispatcherState
  import opened Ids
  import opened SendStepProofs

  /** `do_send` gets as far as asking the socket. */
  predicate Asks(s: State, r: ReqId, guess: Option<uint32>)
    requires ReqKnown(s, r)
  {
    s.conns[s.reqs[r].conn].cbs.state != CsClosed && Offer(s.reqs[r], guess) > 0
  }

  /** The socket is broken, or takes less than it is offered. */
  predicate FallsShort(s: State, r: ReqId, guess: Option<uint32>, w: World)
    requires ReqKnown(s, r)
  {
    Asks(s, r, guess) && Takes(s, r, guess, w) < Offer(s.reqs[r], guess)
  }

  /** The account after `n` bytes at time `t`, and after the switch-off of a socket that fell short. */
  function Billed(b: Bw, c: ConnId, n: uint32, t: Timeb, off: bool): Bw
  {
    var b1 := if n > 0 then Inserted(b, c, n, t) else b;
    if off then Switched(b1, c, false) else b1
  }

  function TimeAfter(s: State, r: ReqId, guess: Option<uint32>, w: World): nat
    requires ReqKnown(s, r)
  {
    if Asks(s, r, guess) then s.now + w.tick(r) else s.now
  }

  function SockAfter(s: State, r: ReqId, guess: Option<uint32>, w: World): Sock
    requires ReqKnown(s, r)
  {
    var sock := s.conns[s.reqs[r].conn].sock;
    if Asks(s, r, guess) then
      var sock' := sock.Refilled(w.refill(r));
      if Takes(s, r, guess, w) <= sock'.room then sock'.(room := sock'.room - Takes(s, r, guess, w)) else sock'
    else sock
  }

  /** When how many bytes went out. */
  function LogAfter(s: State, r: ReqId, guess: Option<uint32>, w: World): seq<Taken>
    requires ReqKnown(s, r)
  {
    var log, n := s.conns[s.reqs[r].conn].log, Takes(s, r, guess, w);
    if n > 0 then log + [Taken(OfMs(TimeAfter(s, r, guess, w)), n, s.bws.maxBw > 0)] else log
  }

  /** The limiter hears exactly of the bytes that went out, and switches off a connection that fell short. */
  ghost predicate Bill(s: State, r: ReqId, guess: Option<uint32>, w: World, s': State)
    requires ReqKnown(s, r) && s.reqs[r].conn in s'.conns
  {
    && Takes(s, r, guess, w) < TWO_TO_THE_32
    && s'.bws == Billed(s.bws, s.reqs[r].conn, Takes(s, r, guess, w), OfMs(s'.now), FallsShort(s, r, guess, w))
    && s'.now == TimeAfter(s, r, guess, w)
    && s'.conns[s.reqs[r].conn].sock == SockAfter(s, r, guess, w)
    && s'.conns[s.reqs[r].conn].log == LogAfter(s, r, guess, w)
  }

  lemma UnaskedBill(s: State, r: ReqId, guess: Option<uint32>, w: World)
    requires ReqKnown(s, r) && !Asks(s, r, guess)
    ensures Bill(s, r, guess, w, DoSend(s, r, guess, w).s)
  {
  }

  lemma FailedBill(s: State, r: ReqId, guess: Option<uint32>, w: World)
    requires ReqKnown(s, r) && Asks(s, r, guess) && s.conns[s.reqs[r].conn].sock.dead
    ensures Bill(s, r, guess, w, DoSend(s, r, guess, w).s)
  {
    var s1 := WorldTurn(s, r, w);
    SendFailedShape(s1, r);
  }

  lemma BlockedBill(s: State, r: ReqId, guess: Option<uint32>, w: World)
    requires ReqKnown(s, r) && Asks(s, r, guess)
    requires !s.conns[s.reqs[r].conn].sock.dead && s.conns[s.reqs[r].conn].sock.room + w.refill(r) == 0
    ensures Bill(s, r, guess, w, DoSend(s, r, guess, w).s)
  {
    assert DoSend(s, r, guess, w) == SendOut(SwitchedOff(WorldTurn(s, r, w), s.reqs[r].conn), guess, false);
  }

  lemma TookAllShape(s: State, r: ReqId, n: nat, guess: Option<uint32>)
    requires ReqKnown(s, r) && 0 < n == |s.reqs[r].data| - s.reqs[r].sent && n <= s.conns[s.reqs[r].conn].sock.room
    requires guess.Some? ==> n <= guess.value
    ensures var s', c := Took(s, r, n, n, guess).s, s.reqs[r].conn;
            && s'.bws == Billed(s.bws, c, n, OfMs(s.now), false)
            && s'.now == s.now
            && s'.conns[c].sock == s.conns[c].sock.(room := s.conns[c].sock.room - n)
            && s'.conns[c].log == s.conns[c].log + [Taken(OfMs(s.now), n, s.bws.maxBw > 0)]
  {
    TookAll(s, r, n, guess);
    CompletedShape(s, r, n);
  }

  lemma CompletedBill(s: State, r: ReqId, guess: Option<uint32>, w: World)
    requires ReqKnown(s, r) && Willing(s, r, guess, w)
    requires Takes(s, r, guess, w) == |s.reqs[r].data| - s.reqs[r].sent
    ensures Bill(s, r, guess, w, DoSend(s, r, guess, w).s)
  {
    var n := Takes(s, r, guess, w);
    assert Offer(s.reqs[r], guess) == n;
    WillingTakes(s, r, guess, w);
    assert DoSend(s, r, guess, w).s == Took(WorldTurn(s, r, w), r, n, n, guess).s;
    TookAllShape(WorldTurn(s, r, w), r, Takes(s, r, guess, w), guess);
  }

  lemma TookSomeShape(s: State, r: ReqId, n: nat, offer: nat, guess: Option<uint32>)
    requires ReqKnown(s, r) && 0 < n < |s.reqs[r].data| - s.reqs[r].sent && n <= s.conns[s.reqs[r].conn].sock.room
    requires n <= offer <= |s.reqs[r].data| - s.reqs[r].sent && (guess.Some? ==> offer <= guess.value)
    ensures var s', c := Took(s, r, n, offer, guess).s, s.reqs[r].conn;
            && s'.bws == Billed(s.bws, c, n, OfMs(s.now), n < offer)
            && s'.now == s.now
            && s'.conns[c].sock == s.conns[c].sock.(room := s.conns[c].sock.room - n)
            && s'.conns[c].log == s.conns[c].log + [Taken(OfMs(s.now), n, s.bws.maxBw > 0)]
  {
  }

  lemma PartialBill(s: State, r: ReqId, guess: Option<uint32>, w: World)
    requires ReqKnown(s, r) && Willing(s, r, guess, w)
    requires Takes(s, r, guess, w) < |s.reqs[r].data| - s.reqs[r].sent
    ensures Bill(s, r, guess, w, DoSend(s, r, guess, w).s)
  {
    WillingTakes(s, r, guess, w);
    TookSomeShape(WorldTurn(s, r, w), r, Takes(s, r, guess, w), Offer(s.reqs[r], guess), guess);
  }

  lemma DoSendBill(s: State, r: ReqId, guess: Option<uint32>, w: World)
    requires ReqKnown(s, r)
    ensures Bill(s, r, guess, w, DoSend(s, r, guess, w).s)
  {
    var sock := s.conns[s.reqs[r].conn].sock;
    if !Asks(s, r, guess) {
      UnaskedBill(s, r, guess, w);
    } else if sock.dead {
      FailedBill(s, r, guess, w);
    } else if sock.room + w.refill(r) == 0 {
      BlockedBill(s, r, guess, w);
    } else if Takes(s, r, guess, w) == |s.reqs[r].data| - s.reqs[r].sent {
      CompletedBill(s, r, guess, w);
    } else {
      PartialBill(s, r, guess, w);
    }
  }
}

/** A walk over a pending list keeps the wire in order, exactly as long as it finishes what it starts. */
module WireWalkProofs {
  import opened CallbackProtocol
  import opened DeliveryProofs
  import opened DispatcherInvariant
  import opened DispatcherState
  import opened DispatcherSteps
  import opened Ids
  import opened SendStepProofs
  import opened WireOrderProofs
  import opened WireStepProofs

  // ---------- one attempt ----------

  /** How the request comes out: `n` more bytes gone, and possibly finished with. */
  ghost predicate ReqWent(q: Req, q': Req, n: nat, dead: bool)
  {
    && q'.conn == q.conn && q'.data == q.data && q'.pos == q.pos
    && q'.sent == q.sent + n && q'.sent <= |q.data|
    && q'.phase != Queued
    && (q'.phase == Failed ==> dead)
    && (q'.phase == Done ==> n > 0)
  }

  ghost predicate ConnWent(k: Conn, k': Conn, q: Req, n: nat, log: seq<ReqId>)
    requires q.sent + n <= |q.data|
  {
    && k'.order == k.order && k'.calls == k.calls
    && k'.wire == k.wire + q.data[q.sent..q.sent + n]
    && k'.doneLog == k.doneLog + log
    && k'.sock.dead == k.sock.dead
  }

  /** One attempt on the i-th pending request of `c`, in which `n` bytes go to the socket. */
  ghost predicate AttemptStep(s: State, s': State, c: ConnId, i: nat, n: nat)
  {
    && Listed(s, c, i) && c in s.conns && c in s'.conns
    && var list := s.outgoings[c];
    var r := list[i];
    && s.reqs[r].conn == c && s.reqs[r].phase == Pending
    && s'.queue == s.queue && s'.conns == s.conns[c := s'.conns[c]]
    && r in s'.reqs && s'.reqs == s.reqs[r := s'.reqs[r]]
    && ReqWent(s.reqs[r], s'.reqs[r], n, s.conns[c].sock.dead)
    && ConnWent(s.conns[c], s'.conns[c], s.reqs[r], n, if s'.reqs[r].phase == Done then [r] else [])
    && (s'.outgoings == s.outgoings || s'.outgoings == s.outgoings[c := Without(list, i)])
  }

  lemma AttemptIsAttemptStep(s: State, c: ConnId, i: nat, guess: Option<uint32>, w: World)
    requires Inv(s) && Listed(s, c, i)
    ensures AttemptStep(s, Attempt(s, c, i, guess, w).s, c, i, Takes(s, s.outgoings[c][i], guess, w))
  {
    ListedPending(s, c, i);
    PendingAttempt(s, c, i, guess, w);
  }

  lemma PendingAttempt(s: State, c: ConnId, i: nat, guess: Option<uint32>, w: World)
    requires Listed(s, c, i) && s.reqs[s.outgoings[c][i]].conn == c && s.reqs[s.outgoings[c][i]].phase == Pending
    ensures AttemptStep(s, Attempt(s, c, i, guess, w).s, c, i, Takes(s, s.outgoings[c][i], guess, w))
  {
    var r := s.outgoings[c][i];
    var out := DoSend(s, r, guess, w);
    DoSendOutcome(s, r, guess, w);
    AttemptState(s, c, i, guess, w);
    WentFromOutcome(s, r, guess, w);
    assert out.s.reqs == s.reqs[r := out.s.reqs[r]];
    assert out.s.conns == s.conns[c := out.s.conns[c]];
    assert s.outgoings[c := s.outgoings[c]] == s.outgoings;
  }

  lemma WentFromOutcome(s: State, r: ReqId, guess: Option<uint32>, w: World)
    requires ReqKnown(s, r) && s.reqs[r].phase == Pending
    ensures var out, n, c := DoSend(s, r, guess, w), Takes(s, r, guess, w), s.reqs[r].conn;
            && s.reqs[r].sent + n <= |s.reqs[r].data|
            && ReqWent(s.reqs[r], out.s.reqs[r], n, s.conns[c].sock.dead)
            && ConnWent(s.conns[c], out.s.conns[c], s.reqs[r], n, if out.s.reqs[r].phase == Done then [r] else [])
  {
    DoSendDelivery(s, r, guess, w);
    DoSendOutcome(s, r, guess, w);
  }

  // ---------- what it does to the wire of the connection ----------

  /** Every request ahead of the i-th pending one on the same list has all its bytes on the wire. */
  ghost predicate EarlierFull(s: State, c: ConnId, i: nat)
    requires c in s.outgoings
  {
    forall a :: 0 <= a < i && a < |s.outgoings[c]| && s.outgoings[c][a] in s.reqs ==> s.reqs[s.outgoings[c][a]].Full()
  }

  lemma WentPlaces(s: State, s': State, c: ConnId, i: nat, n: nat)
    requires AttemptStep(s, s', c, i, n) && Places(s, c)
    ensures Places(s', c)
  {
  }

  lemma WentSorted(s: State, s': State, c: ConnId, i: nat, n: nat)
    requires AttemptStep(s, s', c, i, n) && Sorted(s, c) && ListKnown(s, c, s.outgoings[c])
    ensures Sorted(s', c)
  {
    WithoutDistinct(s.outgoings[c], i);
  }

  lemma NothingBehind(s: State, s': State, c: ConnId, i: nat, n: nat)
    requires AttemptStep(s, s', c, i, n) && n > 0 && Places(s, c) && OneByOne(s.reqs, s.conns[c].order)
    ensures var order, p := s.conns[c].order, s.reqs[s.outgoings[c][i]].pos;
            && p < |order| && order[p] == s.outgoings[c][i]
            && forall j :: p < j < |order| ==> s.reqs[order[j]].sent == 0
  {
    var order, p := s.conns[c].order, s.reqs[s.outgoings[c][i]].pos;
    forall j | p < j < |order|
      ensures s.reqs[order[j]].sent == 0
    {
      assert s.reqs[order[j]].sent > 0 ==> s.reqs[order[p]].Full();
    }
  }

  lemma PlacedOnce(s: State, c: ConnId, p: nat)
    requires c in s.conns && Places(s, c) && p < |s.conns[c].order|
    ensures forall j :: 0 <= j < |s.conns[c].order| && j != p ==> s.conns[c].order[j] != s.conns[c].order[p]
  {
  }

  lemma WentSent(s: State, s': State, c: ConnId, i: nat, n: nat)
    requires AttemptStep(s, s', c, i, n) && Places(s, c) && OneByOne(s.reqs, s.conns[c].order)
    requires s.conns[c].wire == Sent(s.reqs, s.conns[c].order)
    ensures AllIn(s'.reqs, s.conns[c].order)
    ensures s'.conns[c].wire == Sent(s'.reqs, s.conns[c].order)
  {
    var r := s.outgoings[c][i];
    var p := s.reqs[r].pos;
    PlacedOnce(s, c, p);
    if n > 0 {
      NothingBehind(s, s', c, i, n);
    }
    SentGrows(s.reqs, s.conns[c].order, p, s'.reqs[r]);
  }

  lemma WentFinished(s: State, s': State, c: ConnId, i: nat, n: nat)
    requires AttemptStep(s, s', c, i, n) && Places(s, c) && OneByOne(s.reqs, s.conns[c].order)
    requires EndsOk(s, c) && DoneAreFull(s, c)
    requires s.conns[c].doneLog == Finished(s.reqs, s.conns[c].order)
    ensures AllIn(s'.reqs, s.conns[c].order)
    ensures s'.conns[c].doneLog == Finished(s'.reqs, s.conns[c].order)
  {
    var r := s.outgoings[c][i];
    var order, p := s.conns[c].order, s.reqs[r].pos;
    PlacedOnce(s, c, p);
    if s'.reqs[r].phase == Done {
      NothingBehind(s, s', c, i, n);
      forall j | p < j < |order|
        ensures s.reqs[order[j]].phase != Done
      {
        assert s.reqs[order[j]].sent == 0;
      }
    }
    FinishedGrows(s.reqs, order, p, s'.reqs[r]);
  }

  /** Completed requests have gone whole. */
  ghost predicate DoneAreFull(s: State, c: ConnId)
    requires c in s.conns && AllIn(s.reqs, s.conns[c].order)
  {
    forall j :: 0 <= j < |s.conns[c].order| && s.reqs[s.conns[c].order[j]].phase == Done ==> s.reqs[s.conns[c].order[j]].Full()
  }

  lemma DoneAreFullByInv(s: State, c: ConnId)
    requires Inv(s) && c in s.conns && AllIn(s.reqs, s.conns[c].order)
    ensures DoneAreFull(s, c)
  {
    forall j | 0 <= j < |s.conns[c].order| && s.reqs[s.conns[c].order[j]].phase == Done
      ensures s.reqs[s.conns[c].order[j]].Full()
    {
      assert ReqOk(s, s.conns[c].order[j]);
    }
  }

  lemma WentEnds(s: State, s': State, c: ConnId, i: nat, n: nat)
    requires AttemptStep(s, s', c, i, n) && Places(s, c) && EndsOk(s, c)
    requires AllIn(s'.reqs, s.conns[c].order)
    ensures EndsOk(s', c)
  {
  }

  lemma WentLogs(s: State, s': State, c: ConnId, i: nat, n: nat)
    requires AttemptStep(s, s', c, i, n) && ShapeOk(s, c) && LogsOk(s, c) && EndsOk(s, c) && DoneAreFull(s, c)
    requires forall j :: 0 <= j < |s.queue| ==> Known(s, s.queue[j])
    ensures AllIn(s'.reqs, s.conns[c].order) && LogsOk(s', c)
  {
    WentSent(s, s', c, i, n);
    WentFinished(s, s', c, i, n);
    forall j | 0 <= j < |s.queue| && s.queue[j].SendRequest?
      ensures s.queue[j].r in s.reqs
    {
      assert Known(s, s.queue[j]);
    }
    OnTheWaySimilar(s.queue, s.reqs, s'.reqs, c);
  }

  /** Ahead of a request that can still be sent, whatever has left the list went whole. */
  lemma AheadIsFull(s: State, c: ConnId, i: nat, j: nat)
    requires Listed(s, c, i) && c in s.conns && Places(s, c) && Sorted(s, c) && EndsOk(s, c)
    requires ListKnown(s, c, s.outgoings[c])
    requires s.conns[c].cbs.state != CsClosed && !s.conns[c].sock.dead && EarlierFull(s, c, i)
    requires j < s.reqs[s.outgoings[c][i]].pos && j < |s.conns[c].order|
    requires PlaceOk(s, s.conns[c].order[j]) && ReportOk(s.reqs[s.conns[c].order[j]])
    ensures s.reqs[s.conns[c].order[j]].Full()
  {
    var t, list := s.conns[c].order[j], s.outgoings[c];
    if s.reqs[t].phase == Pending {
      var a :| 0 <= a < |list| && list[a] == t;
      assert a < i;
    }
  }

  lemma WentOneByOne(s: State, s': State, c: ConnId, i: nat, n: nat)
    requires AttemptStep(s, s', c, i, n) && Places(s, c) && OneByOne(s.reqs, s.conns[c].order)
    requires AllIn(s'.reqs, s.conns[c].order)
    requires n > 0 ==> forall j :: 0 <= j < s.reqs[s.outgoings[c][i]].pos && j < |s.conns[c].order| ==>
                         s.reqs[s.conns[c].order[j]].Full()
    ensures OneByOne(s'.reqs, s.conns[c].order)
  {
    var r, order := s.outgoings[c][i], s.conns[c].order;
    var p := s.reqs[r].pos;
    PlacedOnce(s, c, p);
    forall a, b | 0 <= a < b < |order| && s'.reqs[order[b]].sent > 0
      ensures s'.reqs[order[a]].Full()
    {
      if b == p {
        assert s'.reqs[order[a]] == s.reqs[order[a]];
      } else {
        assert s.reqs[order[a]].Full();
      }
    }
  }

  lemma WentHere(s: State, s': State, c: ConnId, i: nat, n: nat)
    requires AttemptStep(s, s', c, i, n) && WireOk(s, c) && DoneAreFull(s, c)
    requires ListKnown(s, c, s.outgoings[c])
    requires forall j :: 0 <= j < |s.queue| ==> Known(s, s.queue[j])
    requires n > 0 ==> forall j :: 0 <= j < s.reqs[s.outgoings[c][i]].pos && j < |s.conns[c].order| ==>
                         s.reqs[s.conns[c].order[j]].Full()
    ensures WireOk(s', c)
  {
    WentLogs(s, s', c, i, n);
    WentPlaces(s, s', c, i, n);
    WentSorted(s, s', c, i, n);
    WentOneByOne(s, s', c, i, n);
    WentEnds(s, s', c, i, n);
  }

  lemma WentElsewhere(s: State, s': State, c: ConnId, i: nat, n: nat, d: ConnId)
    requires AttemptStep(s, s', c, i, n) && d in s.conns && d != c && WireOk(s, d)
    requires d in s.outgoings ==> ListKnown(s, d, s.outgoings[d])
    requires forall j :: 0 <= j < |s.queue| ==> Known(s, s.queue[j])
    ensures d in s'.conns && WireOk(s', d)
  {
    forall j | 0 <= j < |s.queue| && s.queue[j].SendRequest?
      ensures s.queue[j].r in s.reqs
    {
      assert Known(s, s.queue[j]);
    }
    OnTheWaySimilar(s.queue, s.reqs, s'.reqs, d);
    WireElsewhere(s, s', d);
  }

  lemma AttemptKeepsTheWires(s: State, c: ConnId, i: nat, guess: Option<uint32>, w: World)
    requires Inv(s) && AllWiresOk(s) && Listed(s, c, i)
    requires Takes(s, s.outgoings[c][i], guess, w) == 0 || EarlierFull(s, c, i)
    ensures AllWiresOk(Attempt(s, c, i, guess, w).s)
  {
    var s', n := Attempt(s, c, i, guess, w).s, Takes(s, s.outgoings[c][i], guess, w);
    AttemptIsAttemptStep(s, c, i, guess, w);
    DoneAreFullByInv(s, c);
    if n > 0 {
      forall j | 0 <= j < s.reqs[s.outgoings[c][i]].pos && j < |s.conns[c].order|
        ensures s.reqs[s.conns[c].order[j]].Full()
      {
        assert ReqOk(s, s.conns[c].order[j]) && ListKnown(s, c, s.outgoings[c]);
        AheadIsFull(s, c, i, j);
      }
    }
    forall d | d in s'.conns
      ensures WireOk(s', d)
    {
      if d == c {
        WentHere(s, s', c, i, n);
      } else {
        WentElsewhere(s, s', c, i, n, d);
      }
    }
  }

  /** Bytes that overtake an unfinished request break the order of the wire for good. */
  lemma OvertakingBreaksTheWire(s: State, s': State, c: ConnId, i: nat, n: nat)
    requires AttemptStep(s, s', c, i, n) && n > 0 && !EarlierFull(s, c, i)
    requires Places(s, c) && Sorted(s, c) && ListKnown(s, c, s.outgoings[c])
    requires AllIn(s'.reqs, s.conns[c].order)
    ensures !OneByOne(s'.reqs, s.conns[c].order)
  {
    var list, order := s.outgoings[c], s.conns[c].order;
    var a :| 0 <= a < i && a < |list| && list[a] in s.reqs && !s.reqs[list[a]].Full();
    assert list[a] != list[i];
    var p, q := s.reqs[list[a]].pos, s.reqs[list[i]].pos;
    assert p < q < |order| && order[p] == list[a] && order[q] == list[i];
    assert s'.reqs[order[q]].sent > 0;
    assert s'.reqs[order[p]] == s.reqs[list[a]];
  }

  /** One attempt keeps the wire in order exactly when nothing goes out, or nothing unfinished is overtaken. */
  lemma AttemptKeepsTheWire(s: State, c: ConnId, i: nat, guess: Option<uint32>, w: World)
    requires Inv(s) && AllWiresOk(s) && Listed(s, c, i)
    ensures AllWiresOk(Attempt(s, c, i, guess, w).s)
       <==> Takes(s, s.outgoings[c][i], guess, w) == 0 || EarlierFull(s, c, i)
  {
    var s', n := Attempt(s, c, i, guess, w).s, Takes(s, s.outgoings[c][i], guess, w);
    if n == 0 || EarlierFull(s, c, i) {
      AttemptKeepsTheWires(s, c, i, guess, w);
    } else {
      ListedPending(s, c, i);
      AttemptIsAttemptStep(s, c, i, guess, w);
      assert WireOk(s, c) && ListKnown(s, c, s.outgoings[c]);
      WentPlaces(s, s', c, i, n);
      OvertakingBreaksTheWire(s, s', c, i, n);
      assert !WireOk(s', c);
    }
  }

  // ---------- whole walks ----------

  /** Nothing more goes to a socket that cannot take any more, as long as the kernel stays quiet. */
  lemma StuckTakesNothing(s: State, r: ReqId, guess: Option<uint32>, w: World)
    requires ReqKnown(s, r) && Stuck(s.conns[s.reqs[r].conn].sock, guess) && w.refill(r) == 0
    ensures Takes(s, r, guess, w) == 0
  {
  }

  /** The walk may go on: what it passed is on the wire, or nothing more will go there. */
  ghost predicate MayGoOn(s: State, c: ConnId, i: nat, guess: Option<uint32>)
  {
    c in s.outgoings && c in s.conns ==> EarlierFull(s, c, i) || Stuck(s.conns[c].sock, guess)
  }

  lemma StaysFull(s: State, s': State, c: ConnId, i: nat)
    requires AttemptStep(s, s', c, i, 0) && EarlierFull(s, c, i) && s'.outgoings == s.outgoings
    requires s.reqs[s.outgoings[c][i]].Full()
    ensures EarlierFull(s', c, i + 1)
  {
  }

  lemma StaysStuck(s: State, r: ReqId, guess: Option<uint32>, w: World)
    requires ReqKnown(s, r) && s.reqs[r].phase == Pending && w.refill(r) == 0 && !DoSend(s, r, guess, w).done
    requires Stuck(s.conns[s.reqs[r].conn].sock, guess) || !s.reqs[r].Full()
    ensures Stuck(DoSend(s, r, guess, w).s.conns[s.reqs[r].conn].sock, DoSend(s, r, guess, w).guess)
  {
    DoSendDelivery(s, r, guess, w);
  }

  lemma FullTakesNothing(s: State, r: ReqId, guess: Option<uint32>, w: World)
    requires ReqKnown(s, r) && s.reqs[r].Full()
    ensures Takes(s, r, guess, w) == 0
  {
  }

  lemma AttemptGoesOn(s: State, c: ConnId, i: nat, guess: Option<uint32>, w: World)
    requires Inv(s) && Listed(s, c, i) && w.refill(s.outgoings[c][i]) == 0 && MayGoOn(s, c, i, guess)
    requires !Attempt(s, c, i, guess, w).done
    ensures MayGoOn(Attempt(s, c, i, guess, w).s, c, i + 1, Attempt(s, c, i, guess, w).guess)
  {
    var r := s.outgoings[c][i];
    ListedPending(s, c, i);
    if s.reqs[r].Full() && EarlierFull(s, c, i) {
      FullTakesNothing(s, r, guess, w);
      AttemptIsAttemptStep(s, c, i, guess, w);
      StaysFull(s, Attempt(s, c, i, guess, w).s, c, i);
    } else {
      StaysStuck(s, r, guess, w);
    }
  }

  lemma {:induction false} SendListKeepsTheWires(s: State, c: ConnId, i: nat, guess: Option<uint32>, w: World)
    requires Inv(s) && AllWiresOk(s) && Quiet(w) && MayGoOn(s, c, i, guess)
    ensures AllWiresOk(SendList(s, c, i, guess, w))
    decreases if c in s.outgoings then |s.outgoings[c]| - i else 0
  {
    if Listed(s, c, i) {
      var r := s.outgoings[c][i];
      var out := Attempt(s, c, i, guess, w);
      ListedPending(s, c, i);
      assert w.refill(r) == 0;
      if Stuck(s.conns[c].sock, guess) {
        StuckTakesNothing(s, r, guess, w);
      }
      AttemptInv(s, c, i, guess, w);
      AttemptKeepsTheWires(s, c, i, guess, w);
      if !out.done {
        AttemptGoesOn(s, c, i, guess, w);
        SendListKeepsTheWires(out.s, c, i + 1, out.guess, w);
      }
    }
  }

  lemma {:induction false} SendAllKeepsTheWires(s: State, order: seq<ConnId>, limited: bool, w: World)
    requires Inv(s) && AllWiresOk(s) && Quiet(w)
    ensures AllWiresOk(SendAll(s, order, limited, w))
    decreases |order|
  {
    if |order| > 0 {
      var guess := GuessFor(s, order[0], limited);
      SendListInv(s, order[0], 0, guess, w);
      SendListKeepsTheWires(s, order[0], 0, guess, w);
      SendAllKeepsTheWires(SendList(s, order[0], 0, guess, w), order[1..], limited, w);
    }
  }
}

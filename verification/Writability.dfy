/** No connection stays switched off while its socket could take bytes, and when that fails. */
module WritabilityProofs {
  import opened Bandwidth
  import opened BillingProofs
  import opened CallbackProtocol
  import opened ClientStepProofs
  import opened Clock
  import opened DeliveryProofs
  import opened DispatcherInvariant
  import opened DispatcherState
  import opened DispatcherSteps
  import opened EventStepProofs
  import opened FloatModel
  import opened Ids
  import opened SendStepProofs
  import opened ThreadStepProofs
  import opened TrackingProofs

  /** A socket that cannot take bytes now, or whose next readiness is still to be reported. */
  predicate Expectable(sock: Sock)
  {
    sock.room == 0 || sock.edge || sock.dead
  }

  predicate SwitchedOffIn(b: Bw, c: ConnId)
  {
    c in b.states && !b.states[c].active
  }

  /** A connection the limiter has switched off will hear of its socket again. */
  ghost predicate Remembered(s: State, c: ConnId)
  {
    c in s.bws.states ==>
      && c in s.conns && s.conns[c].cbs.state != CsClosed
      && (!s.bws.states[c].active ==> Expectable(s.conns[c].sock))
  }

  ghost predicate NoneForgotten(s: State)
  {
    forall c :: c in s.bws.states ==> Remembered(s, c)
  }

  // ---------- steps that forget nobody ----------

  /** Of `c`: still open if tracked, and switched off only if it was, with a socket that is no less expectable. */
  ghost predicate Plain(s: State, s': State, c: ConnId)
  {
    c in s'.bws.states ==>
      && c in s'.conns && s'.conns[c].cbs.state != CsClosed
      && (s'.bws.states[c].active
          || (SwitchedOffIn(s.bws, c) && c in s.conns && (Expectable(s.conns[c].sock) ==> Expectable(s'.conns[c].sock))))
  }

  ghost predicate PlainStep(s: State, s': State)
  {
    forall c :: c in s'.bws.states ==> Plain(s, s', c)
  }

  lemma PlainStepForgetsNobody(s: State, s': State)
    requires NoneForgotten(s) && PlainStep(s, s')
    ensures NoneForgotten(s')
  {
    forall c | c in s'.bws.states
      ensures Remembered(s', c)
    {
      assert Plain(s, s', c);
      assert c in s.bws.states ==> Remembered(s, c);
    }
  }

  lemma SameAccounts(s: State, s': State)
    requires NoneForgotten(s) && s'.bws.states == s.bws.states
    requires forall c :: c in s.conns ==> c in s'.conns && s'.conns[c].cbs == s.conns[c].cbs
    requires forall c :: c in s.conns ==> (Expectable(s.conns[c].sock) ==> Expectable(s'.conns[c].sock))
    ensures NoneForgotten(s')
  {
    forall c | c in s'.bws.states
      ensures Plain(s, s', c)
    {
      assert Remembered(s, c);
    }
    PlainStepForgetsNobody(s, s');
  }

  // ---------- sending ----------

  /** A socket that fell short has no room left, and one that was expectable stays so. */
  lemma SockStaysExpectable(s: State, r: ReqId, guess: Option<uint32>, w: World)
    requires ReqKnown(s, r)
    ensures FallsShort(s, r, guess, w) ==> Expectable(SockAfter(s, r, guess, w))
    ensures Expectable(s.conns[s.reqs[r].conn].sock) ==> Expectable(SockAfter(s, r, guess, w))
  {
  }

  lemma BilledActivity(b: Bw, c: ConnId, n: uint32, t: Timeb, off: bool)
    ensures var b' := Billed(b, c, n, t, off);
            && (forall d :: d != c && d in b'.states ==> d in b.states && b'.states[d] == b.states[d])
            && (c in b'.states ==> (b'.states[c].active || off || SwitchedOffIn(b, c)))
            && (c in b'.states ==> c in b.states || n > 0)
  {
  }

  lemma AttemptForgetsNobody(s: State, c: ConnId, i: nat, guess: Option<uint32>, w: World)
    requires Inv(s) && NoneForgotten(s) && Listed(s, c, i)
    ensures NoneForgotten(Attempt(s, c, i, guess, w).s)
  {
    ListedPending(s, c, i);
    AttemptState(s, c, i, guess, w);
    SendForgetsNobody(s, s.outgoings[c][i], guess, w);
  }

  lemma SendForgetsNobody(s: State, r: ReqId, guess: Option<uint32>, w: World)
    requires NoneForgotten(s) && ReqKnown(s, r) && s.reqs[r].phase == Pending
    ensures NoneForgotten(DoSend(s, r, guess, w).s)
  {
    var c, s' := s.reqs[r].conn, DoSend(s, r, guess, w).s;
    assert c in s.bws.states ==> Remembered(s, c);
    SendTouchesOnly(s, r, guess, w);
    SendRemembers(s, r, guess, w);
    OneConnForgetsNobody(s, s', c);
  }

  lemma SendRemembers(s: State, r: ReqId, guess: Option<uint32>, w: World)
    requires ReqKnown(s, r) && s.reqs[r].phase == Pending
    requires s.reqs[r].conn in s.bws.states ==> Remembered(s, s.reqs[r].conn)
    ensures Remembered(DoSend(s, r, guess, w).s, s.reqs[r].conn)
  {
    var c, s' := s.reqs[r].conn, DoSend(s, r, guess, w).s;
    DoSendBill(s, r, guess, w);
    DoSendOutcome(s, r, guess, w);
    BilledActivity(s.bws, c, Takes(s, r, guess, w), OfMs(s'.now), FallsShort(s, r, guess, w));
    SockStaysExpectable(s, r, guess, w);
  }

  lemma {:induction false} SendListForgetsNobody(s: State, c: ConnId, i: nat, guess: Option<uint32>, w: World)
    requires Inv(s) && NoneForgotten(s)
    ensures NoneForgotten(SendList(s, c, i, guess, w))
    decreases if c in s.outgoings then |s.outgoings[c]| - i else 0
  {
    if Listed(s, c, i) {
      AttemptInv(s, c, i, guess, w);
      AttemptForgetsNobody(s, c, i, guess, w);
      var out := Attempt(s, c, i, guess, w);
      if !out.done {
        SendListForgetsNobody(out.s, c, i + 1, out.guess, w);
      }
    }
  }

  lemma {:induction false} SendAllForgetsNobody(s: State, order: seq<ConnId>, limited: bool, w: World)
    requires Inv(s) && NoneForgotten(s)
    ensures NoneForgotten(SendAll(s, order, limited, w))
    decreases |order|
  {
    if |order| > 0 {
      var guess := GuessFor(s, order[0], limited);
      SendListInv(s, order[0], 0, guess, w);
      SendListForgetsNobody(s, order[0], 0, guess, w);
      SendAllForgetsNobody(SendList(s, order[0], 0, guess, w), order[1..], limited, w);
    }
  }

  lemma RecalcForgetsNobody(s: State, fpu: Fpu)
    requires NoneForgotten(s)
    ensures NoneForgotten(s.(bws := Recalculated(s.bws, OfMs(s.now), fpu)))
  {
    var s' := s.(bws := Recalculated(s.bws, OfMs(s.now), fpu));
    forall c | c in s'.bws.states
      ensures Plain(s, s', c)
    {
      assert Remembered(s, c);
    }
    PlainStepForgetsNobody(s, s');
  }

  lemma LimitedTurnForgetsNobody(s: State, tour: Tour, fpu: Fpu)
    requires Inv(s) && NoneForgotten(s)
    ensures NoneForgotten(LimitedTurn(s, tour, fpu))
  {
    if s.bws.maxBw == 0 {
      SendAllForgetsNobody(s, tour.order, true, tour.second);
    } else {
      var s' := s.(bws := Recalculated(s.bws, OfMs(s.now), fpu));
      RecalcForgetsNobody(s, fpu);
      BystanderInv(s, s');
      SendAllForgetsNobody(s', tour.order, true, tour.second);
    }
  }

  lemma IdleForgetsNobody(s: State, tour: Tour, fpu: Fpu)
    requires Inv(s) && NoneForgotten(s)
    ensures NoneForgotten(Idle(s, tour, fpu))
  {
    if s.bws.maxBw == 0 {
      SendAllInv(s, tour.order, false, tour.first);
      SendAllForgetsNobody(s, tour.order, false, tour.first);
      LimitedTurnForgetsNobody(SendAll(s, tour.order, false, tour.first), tour, fpu);
    } else {
      LimitedTurnForgetsNobody(s, tour, fpu);
    }
  }

  // ---------- opening and closing accounts ----------

  lemma OneConnForgetsNobody(s: State, s': State, c: ConnId)
    requires NoneForgotten(s)
    requires c in s'.conns && s'.conns == s.conns[c := s'.conns[c]]
    requires forall d :: d != c && d in s'.bws.states ==> d in s.bws.states && s'.bws.states[d] == s.bws.states[d]
    requires Remembered(s', c)
    ensures NoneForgotten(s')
  {
    forall d | d in s'.bws.states
      ensures Remembered(s', d)
    {
      if d != c {
        assert Remembered(s, d);
      }
    }
  }

  lemma CloseForgetsNobody(s: State, c: ConnId)
    requires NoneForgotten(s) && c in s.conns
    ensures NoneForgotten(CloseConnection(s, c))
    ensures c !in CloseConnection(s, c).bws.states
  {
    var s' := CloseConnection(s, c);
    assert c in s.bws.states ==> Remembered(s, c);
    if s.conns[c].cbs.state != CsClosed {
      OneConnForgetsNobody(s, s', c);
    }
  }

  lemma CloseMessageForgetsNobody(s: State, c: ConnId, m: Msg)
    requires NoneForgotten(s) && c in s.conns && (m == Close(c) || m == CloseWait(c))
    ensures NoneForgotten(Handle(s, m))
  {
    CloseForgetsNobody(s, c);
    CloseShape(s, c, m);
    assert Handle(s, m).bws == CloseConnection(s, c).bws;
    OneConnForgetsNobody(s, Handle(s, m), c);
  }

  /** One connection's books moved; its account, its state and its socket did not. */
  lemma BooksForgetNobody(s: State, s': State, c: ConnId)
    requires NoneForgotten(s) && c in s.conns && c in s'.conns && s'.conns == s.conns[c := s'.conns[c]]
    requires s'.bws.states == s.bws.states
    requires s.conns[c].cbs.state != CsClosed ==> s'.conns[c].cbs.state != CsClosed
    requires Expectable(s.conns[c].sock) ==> Expectable(s'.conns[c].sock)
    ensures NoneForgotten(s')
  {
    assert c in s.bws.states ==> Remembered(s, c);
    OneConnForgetsNobody(s, s', c);
  }

  lemma PopMessageForgetsNobody(s: State)
    requires NoneForgotten(s) && |s.queue| > 0 && Known(s, s.queue[0])
    requires s.queue[0].SendRequest? || s.queue[0].BreakSend? ==> ReqKnown(s, s.queue[0].r)
    ensures NoneForgotten(PopMessage(s))
  {
    var s0, s' := s.(queue := s.queue[1..]), PopMessage(s);
    SameAccounts(s, s0);
    match s.queue[0]
    case StopAccepting => SameAccounts(s, s');
    case Create(c) => BooksForgetNobody(s0, s', c);
    case Close(c) => CloseMessageForgetsNobody(s0, c, s.queue[0]);
    case CloseWait(c) => CloseMessageForgetsNobody(s0, c, s.queue[0]);
    case SendRequest(r) => BooksForgetNobody(s0, s', s.reqs[r].conn);
    case BreakSend(r) =>
      UnrefShape2(s0, s', r, s.reqs[r].Reported(false).(broken := true));
      BooksForgetNobody(s0, s', s.reqs[r].conn);
  }

  lemma AcceptForgetsNobody(s: State, n: Newcomer)
    requires NoneForgotten(s) && n.c !in s.conns
    ensures NoneForgotten(AcceptConnection(s, n))
  {
    assert n.c in s.bws.states ==> Remembered(s, n.c);
    if s.accepted {
      OneConnForgetsNobody(s, AcceptConnection(s, n), n.c);
    }
  }

  lemma {:induction false} AcceptAllForgetsNobody(s: State, news: seq<Newcomer>)
    requires Inv(s) && NoneForgotten(s) && FreshNewcomers(s, news)
    ensures NoneForgotten(AcceptAll(s, news))
    decreases |news|
  {
    if |news| > 0 {
      var init, last := news[..|news| - 1], news[|news| - 1];
      AcceptAllForgetsNobody(s, init);
      AcceptAllInv(s, init);
      assert last.c !in AcceptAll(s, init).conns;
      AcceptForgetsNobody(AcceptAll(s, init), last);
    }
  }

  // ---------- events ----------

  /** Nothing but connection `c` and its account changed. */
  ghost predicate TouchesOnly(s: State, s': State, c: ConnId)
  {
    && c in s.conns && c in s'.conns && s'.conns == s.conns[c := s'.conns[c]]
    && (forall d :: d != c ==> (d in s'.bws.states <==> d in s.bws.states))
    && (forall d :: d != c && d in s.bws.states ==> s'.bws.states[d] == s.bws.states[d])
  }

  lemma TouchesOnlyTransitive(a: State, b: State, c: State, x: ConnId)
    requires TouchesOnly(a, b, x) && TouchesOnly(b, c, x)
    ensures TouchesOnly(a, c, x)
  {
  }

  lemma OnlyOneMatters(s: State, s': State, c: ConnId)
    requires NoneForgotten(s) && TouchesOnly(s, s', c)
    ensures NoneForgotten(s') <==> Remembered(s', c)
  {
    if Remembered(s', c) {
      OneConnForgetsNobody(s, s', c);
    }
  }

  lemma TouchesNothing(s: State, c: ConnId)
    requires c in s.conns
    ensures TouchesOnly(s, s, c)
  {
    assert s.conns == s.conns[c := s.conns[c]];
  }

  lemma SendTouchesOnly(s: State, r: ReqId, guess: Option<uint32>, w: World)
    requires ReqKnown(s, r) && s.reqs[r].phase == Pending
    ensures TouchesOnly(s, DoSend(s, r, guess, w).s, s.reqs[r].conn)
  {
    var s' := DoSend(s, r, guess, w).s;
    DoSendBill(s, r, guess, w);
    DoSendOutcome(s, r, guess, w);
    BilledActivity(s.bws, s.reqs[r].conn, Takes(s, r, guess, w), OfMs(s'.now), FallsShort(s, r, guess, w));
    BilledElsewhere(s.bws, s.reqs[r].conn, Takes(s, r, guess, w), OfMs(s'.now), FallsShort(s, r, guess, w));
  }

  lemma BilledElsewhere(b: Bw, c: ConnId, n: uint32, t: Timeb, off: bool)
    ensures forall d :: d != c && d in b.states ==> d in Billed(b, c, n, t, off).states
  {
  }

  lemma AttemptTouchesOnly(s: State, c: ConnId, i: nat, guess: Option<uint32>, w: World)
    requires Inv(s) && Listed(s, c, i)
    ensures TouchesOnly(s, Attempt(s, c, i, guess, w).s, c)
  {
    ListedPending(s, c, i);
    AttemptState(s, c, i, guess, w);
    SendTouchesOnly(s, s.outgoings[c][i], guess, w);
  }

  lemma {:induction false} SendListTouchesOnly(s: State, c: ConnId, i: nat, guess: Option<uint32>, w: World)
    requires Inv(s) && c in s.conns
    ensures TouchesOnly(s, SendList(s, c, i, guess, w), c)
    decreases if c in s.outgoings then |s.outgoings[c]| - i else 0
  {
    if !Listed(s, c, i) {
      TouchesNothing(s, c);
    } else {
      var out := Attempt(s, c, i, guess, w);
      AttemptInv(s, c, i, guess, w);
      AttemptTouchesOnly(s, c, i, guess, w);
      if !out.done {
        SendListTouchesOnly(out.s, c, i + 1, out.guess, w);
        TouchesOnlyTransitive(s, out.s, SendList(out.s, c, i + 1, out.guess, w), c);
      }
    }
  }

  // ---------- how much a walk without a limit sends ----------

  /** What is left of the first unfinished request from the i-th on. */
  function FirstRest(s: State, c: ConnId, i: nat): nat
    decreases if c in s.outgoings then |s.outgoings[c]| - i else 0
  {
    if !Listed(s, c, i) then 0
    else
      var q := s.reqs[s.outgoings[c][i]];
      if q.Full() then FirstRest(s, c, i + 1) else |q.data| - q.sent
  }

  /** A connection that can be sent on, without a limit. */
  ghost predicate Free(s: State, c: ConnId)
  {
    s.bws.maxBw == 0 && c in s.conns && s.conns[c].cbs.state != CsClosed && !s.conns[c].sock.dead
  }

  lemma FreeSend(s: State, r: ReqId, w: World)
    requires ReqKnown(s, r) && s.reqs[r].phase == Pending && Free(s, s.reqs[r].conn) && w.refill(r) == 0
    ensures var out, q := DoSend(s, r, None, w), s.reqs[r];
            var n := Min(|q.data| - q.sent, s.conns[q.conn].sock.room);
            && out.s.bws == s.bws && out.guess == None
            && q.conn in out.s.conns
            && out.s.conns[q.conn].sock == s.conns[q.conn].sock.(room := s.conns[q.conn].sock.room - n)
            && out.s.conns[q.conn].cbs == s.conns[q.conn].cbs
            && (out.done <==> 0 < n == |q.data| - q.sent)
            && (q.Full() ==> out.s == s)
  {
    DoSendBill(s, r, None, w);
    DoSendDelivery(s, r, None, w);
    DoSendOutcome(s, r, None, w);
  }

  lemma FreeAttempt(s: State, c: ConnId, i: nat, w: World)
    requires Inv(s) && Listed(s, c, i) && Free(s, c) && w.refill(s.outgoings[c][i]) == 0
    ensures var out, q := Attempt(s, c, i, None, w), s.reqs[s.outgoings[c][i]];
            var n := Min(|q.data| - q.sent, s.conns[c].sock.room);
            && Free(out.s, c) && out.s.bws == s.bws && out.guess == None
            && out.s.conns[c].sock == s.conns[c].sock.(room := s.conns[c].sock.room - n)
            && (out.done <==> 0 < n == |q.data| - q.sent)
            && (q.Full() ==> out.s == s)
  {
    ListedPending(s, c, i);
    AttemptState(s, c, i, None, w);
    FreeSend(s, s.outgoings[c][i], w);
  }

  /** A walk without a limit sends the first unfinished request and nothing else, as far as there is room. */
  lemma {:induction false} FreeWalk(s: State, c: ConnId, i: nat, w: World)
    requires Inv(s) && Free(s, c) && Quiet(w)
    ensures var s', sock := SendList(s, c, i, None, w), s.conns[c].sock;
            && Free(s', c) && s'.bws == s.bws
            && s'.conns[c].sock == sock.(room := if FirstRest(s, c, i) <= sock.room then sock.room - FirstRest(s, c, i) else 0)
    decreases if c in s.outgoings then |s.outgoings[c]| - i else 0
  {
    if Listed(s, c, i) {
      assert w.refill(s.outgoings[c][i]) == 0;
      AttemptInv(s, c, i, None, w);
      FreeAttempt(s, c, i, w);
      if !Attempt(s, c, i, None, w).done {
        FreeWalk(Attempt(s, c, i, None, w).s, c, i + 1, w);
      }
    }
  }

  // ---------- exactly which events forget a connection ----------

  /** Reporting writability to a switched-off connection has no effect on a limiter without a limit. */
  ghost predicate Overlooked(s: State, e: NetEvent)
    requires e.c in s.conns
  {
    && e.write && !e.close && s.bws.maxBw == 0
    && SwitchedOffIn(s.bws, e.c) && !s.conns[e.c].sock.dead
  }

  /** And the bytes sent at once do not use up the room. */
  ghost predicate Forgets(s: State, e: NetEvent)
    requires e.c in s.conns
  {
    && Overlooked(s, e)
    && s.conns[e.c].sock.room > FirstRest(s, e.c, 0)
    && (e.read ==> DoRecv(s.conns[e.c].cbs, e.res).1)
  }

  lemma TrackedIsNotConnecting(s: State, c: ConnId)
    requires Inv(s) && TrackedConnected(s) && c in s.bws.states
    ensures c in s.conns && !s.conns[c].cbs.connected
  {
    assert ConnectedIn(s, c) && ConnOk(s, c);
  }

  lemma EstablishedRemembers(s: State, e: NetEvent)
    requires Enabled(s, HandlesEvent(e)) && e.write && !e.close && s.conns[e.c].cbs.connected && e.c !in s.bws.states
    ensures var s1 := WriteEvent(Delivered(s, e.c, true), e.c, e.w);
            TouchesOnly(s, s1, e.c) && Remembered(s1, e.c)
  {
  }

  lemma SwitchedOnRemembers(s: State, e: NetEvent)
    requires Enabled(s, HandlesEvent(e)) && e.write && !e.close && !s.conns[e.c].cbs.connected && s.bws.maxBw > 0
    ensures var s1 := WriteEvent(Delivered(s, e.c, true), e.c, e.w);
            TouchesOnly(s, s1, e.c) && Remembered(s1, e.c)
  {
  }

  lemma FirstRestDelivered(s: State, c: ConnId, i: nat)
    requires c in s.conns
    ensures FirstRest(Delivered(s, c, true), c, i) == FirstRest(s, c, i)
    decreases if c in s.outgoings then |s.outgoings[c]| - i else 0
  {
    if Listed(s, c, i) {
      assert Listed(Delivered(s, c, true), c, i);
      FirstRestDelivered(s, c, i + 1);
    }
  }

  lemma FreeWriteShape(s: State, c: ConnId, w: World)
    requires c in s.conns && !s.conns[c].cbs.connected && s.bws.maxBw == 0
    ensures WriteEvent(s, c, w) == SendList(s, c, 0, None, w)
  {
    assert Switched(s.bws, c, true) == s.bws && s.(bws := s.bws) == s;
  }

  lemma FreeWriteBooks(s: State, e: NetEvent)
    requires Inv(s) && Enabled(s, HandlesEvent(e)) && !s.conns[e.c].cbs.connected && s.bws.maxBw == 0
    ensures var s1 := SendList(Delivered(s, e.c, true), e.c, 0, None, e.w);
            && TouchesOnly(s, s1, e.c) && s1.bws == s.bws && s1.conns[e.c].cbs == s.conns[e.c].cbs
  {
    var c, s0 := e.c, Delivered(s, e.c, true);
    DeliveredInv(s, c, true);
    SendListTouchesOnly(s0, c, 0, None, e.w);
    TouchesOnlyTransitive(s, s0, SendList(s0, c, 0, None, e.w), c);
    SendListKeepsLives(s0, c, 0, None, e.w);
    LifeOf(s0, SendList(s0, c, 0, None, e.w), c);
    FreeListKeepsAccounts(s0, c, 0, None, e.w);
  }

  lemma FreeWriteSocket(s: State, e: NetEvent)
    requires Inv(s) && Enabled(s, HandlesEvent(e)) && s.bws.maxBw == 0 && e.write
    requires !s.conns[e.c].sock.dead ==> Quiet(e.w)
    ensures e.c in SendList(Delivered(s, e.c, true), e.c, 0, None, e.w).conns
    ensures var s1 := SendList(Delivered(s, e.c, true), e.c, 0, None, e.w);
            Expectable(s1.conns[e.c].sock) <==> s.conns[e.c].sock.dead || s.conns[e.c].sock.room <= FirstRest(s, e.c, 0)
  {
    var c, s0 := e.c, Delivered(s, e.c, true);
    DeliveredInv(s, c, true);
    FirstRestDelivered(s, c, 0);
    if s.conns[c].sock.dead {
      DeadStaysDead(s0, c, 0, e.w);
    } else {
      FreeWalk(s0, c, 0, e.w);
    }
  }

  lemma FreeWriteRemembers(s: State, e: NetEvent)
    requires Inv(s) && Enabled(s, HandlesEvent(e)) && e.write && !e.close && !s.conns[e.c].cbs.connected && s.bws.maxBw == 0
    requires e.c in s.bws.states ==> Remembered(s, e.c)
    requires Overlooked(s, e) ==> Quiet(e.w)
    ensures var s1 := WriteEvent(Delivered(s, e.c, true), e.c, e.w);
            && TouchesOnly(s, s1, e.c)
            && (Remembered(s1, e.c) <==> !(Overlooked(s, e) && s.conns[e.c].sock.room > FirstRest(s, e.c, 0)))
  {
    FreeWriteShape(Delivered(s, e.c, true), e.c, e.w);
    FreeWriteBooks(s, e);
    if s.conns[e.c].sock.dead || Overlooked(s, e) {
      FreeWriteSocket(s, e);
    }
  }

  lemma DeadSend(s: State, r: ReqId, w: World)
    requires ReqKnown(s, r) && s.conns[s.reqs[r].conn].sock.dead
    ensures DoSend(s, r, None, w).s.conns[s.reqs[r].conn].sock.dead
    ensures DoSend(s, r, None, w).guess == None
  {
    DoSendBill(s, r, None, w);
  }

  lemma {:induction false} DeadStaysDead(s: State, c: ConnId, i: nat, w: World)
    requires Inv(s) && c in s.conns && s.conns[c].sock.dead
    ensures SendList(s, c, i, None, w).conns[c].sock.dead
    decreases if c in s.outgoings then |s.outgoings[c]| - i else 0
  {
    if Listed(s, c, i) {
      ListedPending(s, c, i);
      DeadSend(s, s.outgoings[c][i], w);
      AttemptInv(s, c, i, None, w);
      if !Attempt(s, c, i, None, w).done {
        DeadStaysDead(Attempt(s, c, i, None, w).s, c, i + 1, w);
      }
    }
  }

  // ---------- the whole event ----------

  lemma WriteRemembers(s: State, e: NetEvent)
    requires Inv(s) && TrackedConnected(s) && Enabled(s, HandlesEvent(e)) && e.write && !e.close
    requires Overlooked(s, e) ==> Quiet(e.w)
    requires e.c in s.bws.states ==> Remembered(s, e.c)
    ensures var s1 := WriteEvent(Delivered(s, e.c, true), e.c, e.w);
            && TouchesOnly(s, s1, e.c)
            && (Remembered(s1, e.c) <==> !(Overlooked(s, e) && s.conns[e.c].sock.room > FirstRest(s, e.c, 0)))
  {
    if e.c in s.bws.states {
      TrackedIsNotConnecting(s, e.c);
    }
    if s.conns[e.c].cbs.connected {
      EstablishedRemembers(s, e);
    } else if s.bws.maxBw > 0 {
      SwitchedOnRemembers(s, e);
    } else {
      FreeWriteRemembers(s, e);
    }
  }

  lemma ClosingTouchesOnly(s: State, c: ConnId)
    requires c in s.conns && s.conns[c].cbs.state != CsClosed
    ensures TouchesOnly(s, CloseConnection(s, c), c) && c !in CloseConnection(s, c).bws.states
  {
    ClosedShape(s, c);
  }

  lemma ReadRemembers(s: State, c: ConnId, res: RecvResult)
    requires c in s.conns && s.conns[c].cbs.state != CsClosed
    ensures TouchesOnly(s, RecvEvent(s, c, res), c)
    ensures Remembered(RecvEvent(s, c, res), c) <==> Remembered(s, c) || !DoRecv(s.conns[c].cbs, res).1
  {
    var (cbs, open) := DoRecv(s.conns[c].cbs, res);
    var s' := WithConn(s, c, s.conns[c].(cbs := cbs));
    assert TouchesOnly(s, s', c) && (Remembered(s', c) <==> Remembered(s, c));
    if !open {
      ClosingTouchesOnly(s', c);
      TouchesOnlyTransitive(s, s', CloseConnection(s', c), c);
    }
  }

  lemma WriteKeepsReading(s: State, c: ConnId, w: World)
    requires Inv(s) && c in s.conns
    ensures c in WriteEvent(s, c, w).conns && WriteEvent(s, c, w).conns[c].cbs.read == s.conns[c].cbs.read
  {
    if !s.conns[c].cbs.connected {
      var s1 := s.(bws := Switched(s.bws, c, true));
      BystanderInv(s, s1);
      SendListKeepsLives(s1, c, 0, None, w);
      LifeOf(s1, SendList(s1, c, 0, None, w), c);
    }
  }

  lemma CloseEventRemembers(s: State, e: NetEvent)
    requires Enabled(s, HandlesEvent(e)) && e.close
    ensures TouchesOnly(s, Event(s, e), e.c) && Remembered(Event(s, e), e.c)
  {
  }

  lemma ReadAfterWrite(s: State, s1: State, e: NetEvent)
    requires e.c in s.conns && e.write && !e.close && e.read && TouchesOnly(s, s1, e.c)
    requires s1.conns[e.c].cbs.state != CsClosed && s1.conns[e.c].cbs.read == s.conns[e.c].cbs.read
    requires Remembered(s1, e.c) <==>
               !(Overlooked(s, e) && s.conns[e.c].sock.room > FirstRest(s, e.c, 0))
    ensures var s' := RecvEvent(s1, e.c, e.res);
            TouchesOnly(s, s', e.c) && (Remembered(s', e.c) <==> !Forgets(s, e))
  {
    ReadRemembers(s1, e.c, e.res);
    TouchesOnlyTransitive(s, s1, RecvEvent(s1, e.c, e.res), e.c);
    assert DoRecv(s1.conns[e.c].cbs, e.res).1 == DoRecv(s.conns[e.c].cbs, e.res).1;
  }

  lemma WriteReadRemembers(s: State, e: NetEvent)
    requires Inv(s) && TrackedConnected(s) && Enabled(s, HandlesEvent(e)) && e.write && !e.close && e.read
    requires Overlooked(s, e) ==> Quiet(e.w)
    requires e.c in s.bws.states ==> Remembered(s, e.c)
    ensures TouchesOnly(s, Event(s, e), e.c) && (Remembered(Event(s, e), e.c) <==> !Forgets(s, e))
  {
    var s0 := Delivered(s, e.c, true);
    DeliveredInv(s, e.c, true);
    WriteRemembers(s, e);
    WriteLeavesOpen(s0, e.c, e.w);
    ReadAfterWrite(s, WriteEvent(s0, e.c, e.w), e);
  }

  lemma WriteLeavesOpen(s: State, c: ConnId, w: World)
    requires Inv(s) && c in s.conns && s.conns[c].registered && s.conns[c].cbs.state != CsClosed
    ensures c in WriteEvent(s, c, w).conns && WriteEvent(s, c, w).conns[c].cbs.read == s.conns[c].cbs.read
    ensures WriteEvent(s, c, w).conns[c].cbs.state != CsClosed
  {
    WriteEventInv(s, c, w);
    WriteKeepsReading(s, c, w);
  }

  lemma WriteOnlyRemembers(s: State, e: NetEvent)
    requires Inv(s) && TrackedConnected(s) && Enabled(s, HandlesEvent(e)) && e.write && !e.close && !e.read
    requires Overlooked(s, e) ==> Quiet(e.w)
    requires e.c in s.bws.states ==> Remembered(s, e.c)
    ensures TouchesOnly(s, Event(s, e), e.c) && (Remembered(Event(s, e), e.c) <==> !Forgets(s, e))
  {
    WriteRemembers(s, e);
  }

  lemma NoWriteRemembers(s: State, e: NetEvent)
    requires Enabled(s, HandlesEvent(e)) && !e.write && !e.close
    requires e.c in s.bws.states ==> Remembered(s, e.c)
    ensures TouchesOnly(s, Event(s, e), e.c) && Remembered(Event(s, e), e.c)
  {
    TouchesNothing(s, e.c);
    ReadRemembers(s, e.c, e.res);
  }

  lemma EventRemembers(s: State, e: NetEvent)
    requires Inv(s) && TrackedConnected(s) && Enabled(s, HandlesEvent(e)) && (Overlooked(s, e) ==> Quiet(e.w))
    requires e.c in s.bws.states ==> Remembered(s, e.c)
    ensures TouchesOnly(s, Event(s, e), e.c) && (Remembered(Event(s, e), e.c) <==> !Forgets(s, e))
  {
    if e.close {
      CloseEventRemembers(s, e);
    } else if !e.write {
      NoWriteRemembers(s, e);
    } else if e.read {
      WriteReadRemembers(s, e);
    } else {
      WriteOnlyRemembers(s, e);
    }
  }

  /** An event leaves a switched-off connection waiting for nothing exactly when it forgets it. */
  lemma EventForgets(s: State, e: NetEvent)
    requires Inv(s) && TrackedConnected(s) && NoneForgotten(s)
    requires Enabled(s, HandlesEvent(e)) && (Overlooked(s, e) ==> Quiet(e.w))
    ensures NoneForgotten(Event(s, e)) <==> !Forgets(s, e)
  {
    EventRemembers(s, e);
    OnlyOneMatters(s, Event(s, e), e.c);
  }

  // ---------- every step and every run ----------

  lemma HolderForgetsNobody(s: State, a: Action)
    requires NoneForgotten(s) && Enabled(s, a)
    requires a.ClientDials? || a.ClientCloses? || a.ClientClosesAndWaits? || a.ClientResumes? || a.ClientAddrefs?
          || a.ClientReleases? || a.ClientSends? || a.RoomGrows? || a.SocketBreaks?
    ensures NoneForgotten(Next(s, a))
  {
    BooksForgetNobody(s, Next(s, a), a.c);
  }

  lemma ClientForgetsNobody(s: State, a: Action)
    requires NoneForgotten(s) && Enabled(s, a)
    requires !a.HandlesMessage? && !a.HandlesEvent? && !a.HandlesListener? && !a.Idles?
    ensures NoneForgotten(Next(s, a))
  {
    var s' := Next(s, a);
    if a.ClientMakes? || a.ClientConnects? {
      NewcomerForgetsNobody(s, s', a.c);
    } else if a.ClientReleasesReq? {
      UnrefShape2(s, s', a.r, s.reqs[a.r].(clientRef := false));
      BooksForgetNobody(s, s', s.reqs[a.r].conn);
    } else if a.ClientBreaks? || a.ClientCounts? || a.ClientStopsAccepting? || a.ClientSetsLimit? || a.TimePasses? {
      SameAccounts(s, s');
    } else {
      HolderForgetsNobody(s, a);
    }
  }

  lemma NewcomerForgetsNobody(s: State, s': State, c: ConnId)
    requires NoneForgotten(s) && c !in s.conns && c in s'.conns && s'.conns == s.conns[c := s'.conns[c]]
    requires s'.bws == s.bws
    ensures NoneForgotten(s')
  {
    assert c in s.bws.states ==> Remembered(s, c);
    OneConnForgetsNobody(s, s', c);
  }

  /** A step remembers when it is no event that forgets; only events without a limit can. */
  ghost predicate Attentive(s: State, a: Action)
  {
    a.HandlesEvent? && a.e.c in s.conns && Overlooked(s, a.e) ==> Quiet(a.e.w) && !Forgets(s, a.e)
  }

  lemma MessageForgetsNobody(s: State)
    requires Inv(s) && NoneForgotten(s) && Enabled(s, HandlesMessage)
    ensures NoneForgotten(Next(s, HandlesMessage))
  {
    NextMessageKnown(s);
    PopMessageForgetsNobody(s);
  }

  lemma ThreadForgetsNobody(s: State, a: Action)
    requires Inv(s) && TrackedConnected(s) && NoneForgotten(s) && Enabled(s, a) && Attentive(s, a)
    requires a.HandlesEvent? || a.HandlesListener? || a.Idles?
    ensures NoneForgotten(Next(s, a))
  {
    if a.HandlesEvent? {
      EventForgets(s, a.e);
    } else if a.HandlesListener? {
      AcceptAllForgetsNobody(s, a.news);
    } else {
      IdleForgetsNobody(s, a.tour, a.fpu);
    }
  }

  lemma StepForgetsNobody(s: State, a: Action)
    requires Inv(s) && TrackedConnected(s) && NoneForgotten(s) && Enabled(s, a) && Attentive(s, a)
    ensures NoneForgotten(Next(s, a))
  {
    if a.HandlesMessage? {
      MessageForgetsNobody(s);
    } else if a.HandlesEvent? || a.HandlesListener? || a.Idles? {
      ThreadForgetsNobody(s, a);
    } else {
      ClientForgetsNobody(s, a);
    }
  }

  ghost predicate AttentiveRun(s: State, run: seq<Action>)
    decreases |run|
  {
    |run| == 0 || (Enabled(s, run[0]) && Attentive(s, run[0]) && AttentiveRun(Next(s, run[0]), run[1..]))
  }

  /** No lost writability, over every run none of whose events forgets a connection. */
  lemma {:induction false} RunForgetsNobody(s: State, run: seq<Action>)
    requires Inv(s) && TrackedConnected(s) && NoneForgotten(s) && OrderlyRun(s, run) && AttentiveRun(s, run)
    ensures ValidRun(s, run) && NoneForgotten(After(s, run))
    decreases |run|
  {
    if |run| > 0 {
      StepInv(s, run[0]);
      StepTracks(s, run[0]);
      StepForgetsNobody(s, run[0]);
      RunForgetsNobody(Next(s, run[0]), run[1..]);
    }
  }

  lemma NoLostWritability(s: State, start: Start, run: seq<Action>, c: ConnId)
    requires Reached(s, start, run) && AttentiveRun(Initial(start), run)
    requires SwitchedOffIn(s.bws, c)
    ensures c in s.conns && s.conns[c].cbs.state != CsClosed
    ensures s.conns[c].sock.room == 0 || s.conns[c].sock.edge || s.conns[c].sock.dead
  {
    InitialInv(start.total, start.unset, start.now);
    RunForgetsNobody(Initial(start), run);
    assert Remembered(s, c);
  }

  /** The limit is not lifted once there is one. */
  ghost predicate NeverLifts(s: State, run: seq<Action>)
    decreases |run|
  {
    |run| == 0 ||
    (Enabled(s, run[0]) && !(run[0] == ClientSetsLimit(0) && s.bws.maxBw > 0) && NeverLifts(Next(s, run[0]), run[1..]))
  }

  /** While nobody has been tracked yet, or under a limit that is never lifted, no event is overlooked. */
  lemma {:induction false} LimitedIsAttentive(s: State, run: seq<Action>)
    requires Inv(s) && (s.bws.maxBw > 0 || s.bws.states == map[]) && OrderlyRun(s, run) && NeverLifts(s, run)
    ensures AttentiveRun(s, run)
    decreases |run|
  {
    if |run| > 0 {
      StepInv(s, run[0]);
      StepKeepsLimit(s, run[0]);
      if s.bws.maxBw == 0 {
        FreeStepTracksNobody(s, run[0]);
      }
      LimitedIsAttentive(Next(s, run[0]), run[1..]);
    }
  }

  /**
   No lost writability, whatever the kernel does, in every run from the dispatcher's start in which a
   limit is not lifted any more once it has been set: a connection the limiter has switched off has a
   socket without room or a readiness still to come.
   */
  lemma NoLostWritabilityUnderALimit(s: State, start: Start, run: seq<Action>, c: ConnId)
    requires Reached(s, start, run) && NeverLifts(Initial(start), run)
    requires SwitchedOffIn(s.bws, c)
    ensures c in s.conns && s.conns[c].cbs.state != CsClosed
    ensures s.conns[c].sock.room == 0 || s.conns[c].sock.edge || s.conns[c].sock.dead
  {
    InitialInv(start.total, start.unset, start.now);
    LimitedIsAttentive(Initial(start), run);
    NoLostWritability(s, start, run, c);
  }

  /** And from any reachable state under a limit that has forgotten nobody, whatever happened before. */
  lemma NobodyIsForgottenUnderALimit(s: State, start: Start, before: seq<Action>, run: seq<Action>)
    requires Reached(s, start, before) && s.bws.maxBw > 0 && NoneForgotten(s)
    requires OrderlyRun(s, run) && NeverLifts(s, run)
    ensures ValidRun(s, run) && NoneForgotten(After(s, run))
  {
    ReachedInv(s, start, before);
    ReachedTracked(s, start, before);
    LimitedIsAttentive(s, run);
    RunForgetsNobody(s, run);
  }
}

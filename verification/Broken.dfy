/** A break reports the failure of a send and does not take the request off its list. */
module BrokenFindings {
  import opened Bandwidth
  import opened CallbackProtocol
  import opened DeliveryProofs
  import opened DispatcherInvariant
  import opened DispatcherState
  import opened DispatcherSteps
  import opened EventStepProofs
  import opened Ids
  import opened Scenarios
  import opened SendStepProofs
  import opened ThreadStepProofs

  // ---------- exactly when a request puts bytes on the wire ----------

  /** What an attempt needs to send something; whether the request was broken off is not part of it. */
  predicate Sendable(s: State, r: ReqId, guess: Option<uint32>, w: World)
    requires ReqKnown(s, r)
  {
    var k := s.conns[s.reqs[r].conn];
    && k.cbs.state != CsClosed && !k.sock.dead && k.sock.room + w.refill(r) > 0
    && !s.reqs[r].Full() && guess != Some(0)
  }

  lemma TakesWhenSendable(s: State, r: ReqId, guess: Option<uint32>, w: World)
    requires ReqKnown(s, r)
    ensures Takes(s, r, guess, w) > 0 <==> Sendable(s, r, guess, w)
  {
  }

  /**
   In every reachable state an attempt puts bytes of a listed request on the wire exactly when it is
   sendable, broken or not.
   */
  lemma ListedBytesGoOut(s: State, start: Start, run: seq<Action>, c: ConnId, i: nat, guess: Option<uint32>, w: World)
    requires Reached(s, start, run) && Listed(s, c, i)
    ensures var out, r := Attempt(s, c, i, guess, w), s.outgoings[c][i];
            && r in out.s.reqs && c in s.conns && c in out.s.conns
            && (out.s.reqs[r].sent > s.reqs[r].sent <==> Sendable(s, r, guess, w))
            && (|out.s.conns[c].wire| > |s.conns[c].wire| <==> Sendable(s, r, guess, w))
  {
    ReachedInv(s, start, run);
    ListedPending(s, c, i);
    AttemptState(s, c, i, guess, w);
    DoSendDelivery(s, s.outgoings[c][i], guess, w);
    TakesWhenSendable(s, s.outgoings[c][i], guess, w);
  }

  /** What handling a break does. */
  ghost predicate BrokenInto(s: State, s': State, r: ReqId)
    requires ReqKnown(s, r)
  {
    var c := s.reqs[r].conn;
    && ReqKnown(s', r) && s'.outgoings == s.outgoings && s'.reqs[r].broken && s'.reqs[r].conn == c
    && s'.reqs[r].data == s.reqs[r].data && s'.reqs[r].sent == s.reqs[r].sent
    && s'.conns[c].cbs == s.conns[c].cbs && s'.conns[c].sock == s.conns[c].sock
  }

  lemma SameSendable(s: State, s': State, r: ReqId, guess: Option<uint32>, w: World)
    requires ReqKnown(s, r) && BrokenInto(s, s', r) && PlaceOk(s, r)
    ensures s'.outgoings == s.outgoings && s'.reqs[r].broken
    ensures s.reqs[r].phase == Pending <==> OnList(s', s.reqs[r].conn, r)
    ensures Sendable(s', r, guess, w) <==> Sendable(s, r, guess, w)
  {
  }

  lemma BreakHandled(s: State, r: ReqId)
    requires Inv(s) && |s.queue| > 0 && s.queue[0] == BreakSend(r)
    ensures Enabled(s, HandlesMessage) && ReqKnown(s, r) && ReqOk(s, r)
    ensures BrokenInto(s, PopMessage(s), r)
  {
    NextMessageKnown(s);
    assert ReqOk(s, r);
    BreakShape(s, r);
  }

  lemma BreakShape(s: State, r: ReqId)
    requires |s.queue| > 0 && s.queue[0] == BreakSend(r) && ReqKnown(s, r)
    ensures BrokenInto(s, PopMessage(s), r)
  {
    FalseCbShape(s, r);
    var q := s.reqs[r].Reported(false);
    assert q.conn == s.reqs[r].conn && q.data == s.reqs[r].data && q.sent == s.reqs[r].sent;
  }

  /** Handling a break leaves the lists and what is to be sent of the request alone. */
  lemma BreakLeavesTheList(s: State, start: Start, run: seq<Action>, r: ReqId, guess: Option<uint32>, w: World)
    requires Reached(s, start, run) && |s.queue| > 0 && s.queue[0] == BreakSend(r)
    ensures Enabled(s, HandlesMessage) && ReqKnown(s, r) && ReqKnown(PopMessage(s), r)
    ensures PopMessage(s).outgoings == s.outgoings && PopMessage(s).reqs[r].broken
    ensures s.reqs[r].phase == Pending <==> OnList(PopMessage(s), s.reqs[r].conn, r)
    ensures Sendable(PopMessage(s), r, guess, w) <==> Sendable(s, r, guess, w)
  {
    ReachedInv(s, start, run);
    BreakHandled(s, r);
    SameSendable(s, PopMessage(s), r, guess, w);
  }

  // ---------- a run ----------

  /** The same request after its break. */
  ghost predicate BrokenOff(s: State)
  {
    && s.queue == [] && s.outgoings == map[0 := [0]] && s.bws.maxBw == 0 && 0 in s.conns
    && s.conns[0].cbs == JustAccepted(false) && s.conns[0].registered && s.conns[0].sock == Sock(0, false, false) && s.conns[0].wire == []
    && 0 in s.reqs && s.reqs[0].conn == 0 && s.reqs[0].data == [7] && s.reqs[0].sent == 0 && s.reqs[0].phase == Pending
    && s.reqs[0].broken && s.reqs[0].reports == [false] && !s.reqs[0].sentCb
  }

  lemma WaitingIsBroken(s: State)
    requires Waiting(s)
    ensures Break(s, 0).queue == [BreakSend(0)] && ReqKnown(Break(s, 0), 0) && BrokenOff(PopMessage(Break(s, 0)))
  {
    var s1 := Break(s, 0);
    assert s1.queue[1..] == [] && [] + [false] == [false];
    FalseCbShape(s1, 0);
  }

  lemma BreakIsEnabled(s: State)
    requires Waiting(s) && !s.crashed
    ensures Enabled(s, ClientBreaks(0)) && Orderly(s, ClientBreaks(0)) && Next(s, ClientBreaks(0)) == Break(s, 0)
  {
  }

  lemma BreakWaiting(s: State, run: seq<Action>) returns (run': seq<Action>)
    requires Reached(s, START, run) && Waiting(s)
    ensures Break(s, 0).queue == [BreakSend(0)] && ReqKnown(Break(s, 0), 0)
    ensures Reached(PopMessage(Break(s, 0)), START, run') && BrokenOff(PopMessage(Break(s, 0)))
  {
    ReachedInv(s, START, run);
    BreakIsEnabled(s);
    WaitingIsBroken(s);
    ReachedNext(s, START, run, ClientBreaks(0));
    run' := HandlesBreak(Break(s, 0), run + [ClientBreaks(0)]);
  }

  lemma HandlesBreak(s: State, run: seq<Action>) returns (run': seq<Action>)
    requires Reached(s, START, run) && s.queue == [BreakSend(0)] && ReqKnown(s, 0)
    ensures Reached(PopMessage(s), START, run')
  {
    run' := HandlesNext(s, START, run);
  }

  lemma ReachBrokenOff() returns (s: State, run: seq<Action>)
    ensures Reached(s, START, run) && BrokenOff(s)
  {
    var s0, run0 := ReachWaiting();
    run := BreakWaiting(s0, run0);
    s := PopMessage(Break(s0, 0));
  }

  const ROOM := NetEvent(0, false, true, false, Got, CALM)

  function WithRoom(s: State): State
    requires 0 in s.conns
  {
    WithConn(s, 0, s.conns[0].(sock := s.conns[0].sock.Refilled(1)))
  }

  lemma BrokenAttempt(s: State)
    requires 0 in s.conns && s.conns[0].cbs == JustAccepted(false) && s.conns[0].sock.room == 1 && !s.conns[0].sock.dead && s.conns[0].wire == []
    requires Listed(s, 0, 0) && s.outgoings[0] == [0] && s.reqs[0].conn == 0 && s.reqs[0].phase == Pending
    requires s.reqs[0].data == [7] && s.reqs[0].sent == 0 && s.reqs[0].broken && s.reqs[0].reports == [false] && !s.reqs[0].sentCb
    ensures var out := Attempt(s, 0, 0, None, CALM);
            && out.done && 0 in out.s.conns && out.s.conns[0].wire == [7]
            && 0 in out.s.reqs && out.s.reqs[0].phase == Done && out.s.reqs[0].broken && out.s.reqs[0].reports == [false]
  {
    AttemptState(s, 0, 0, None, CALM);
    DoSendDelivery(s, 0, None, CALM);
    DoSendOutcome(s, 0, None, CALM);
    assert [7][0..1] == [7] && [] + [7] == [7];
  }

  lemma BrokenGoesOut(s: State)
    requires BrokenOff(s) && Wf(s)
    ensures var s' := Event(WithRoom(s), ROOM);
            && 0 in s'.conns && s'.conns[0].wire == [7]
            && 0 in s'.reqs && s'.reqs[0].phase == Done && s'.reqs[0].broken && s'.reqs[0].reports == [false]
  {
    var s0 := Delivered(WithRoom(s), 0, true);
    var s1 := s0.(bws := Switched(s0.bws, 0, true));
    ListedPending(s, 0, 0);
    assert Listed(s1, 0, 0);
    BrokenAttempt(s1);
    assert SendList(s1, 0, 0, None, CALM) == Attempt(s1, 0, 0, None, CALM).s;
    WriteEventCases(s0, 0, CALM);
  }

  lemma RoomIsEnabled(s: State)
    requires BrokenOff(s) && !s.crashed
    ensures Enabled(s, RoomGrows(0, 1)) && Orderly(s, RoomGrows(0, 1)) && Next(s, RoomGrows(0, 1)) == WithRoom(s)
    ensures Enabled(WithRoom(s), HandlesEvent(ROOM)) && Orderly(WithRoom(s), HandlesEvent(ROOM))
  {
  }

  /** The break is reported, and then the byte goes out. */
  lemma BrokenIsSentAllTheSame() returns (s: State, run: seq<Action>)
    ensures Reached(s, START, run) && 0 in s.conns && s.conns[0].wire == [7]
    ensures 0 in s.reqs && s.reqs[0].broken && s.reqs[0].reports == [false] && s.reqs[0].phase == Done
  {
    var s0, run0 := ReachBrokenOff();
    ReachedInv(s0, START, run0);
    BrokenGoesOut(s0);
    RoomIsEnabled(s0);
    ReachedNext(s0, START, run0, RoomGrows(0, 1));
    s, run := Event(WithRoom(s0), ROOM), run0 + [RoomGrows(0, 1)] + [HandlesEvent(ROOM)];
    ReachedNext(WithRoom(s0), START, run0 + [RoomGrows(0, 1)], HandlesEvent(ROOM));
  }
}

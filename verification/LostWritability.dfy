/** A run in which lifting the limit and restoring it leaves a connection switched off for good. */
module LostWritabilityFinding {
  import opened Bandwidth
  import opened BandwidthTheorems
  import opened BillingProofs
  import opened CallbackProtocol
  import opened CalmStepProofs
  import opened Clock
  import opened DeliveryProofs
  import opened DispatcherInvariant
  import opened DispatcherState
  import opened DispatcherSteps
  import opened EventStepProofs
  import opened FloatModel
  import opened Ids
  import opened LedgerProofs
  import opened Scenarios
  import opened SendStepProofs
  import opened TrackingProofs
  import opened WritabilityProofs

  /** The limiter tracks one connection, switched on, and its window is empty. */
  ghost predicate OnlyAccount(b: Bw, t: Timeb)
  {
    && b.maxBw == 100 && b.states.Keys == {0} && b.states[0].active
    && AccountsOk(b, t) && Window(b, t) == 0
  }

  lemma NoAccounts(b: Bw, t: Timeb)
    requires b.states == map[]
    ensures AccountsOk(b, t) && Window(b, t) == 0
  {
    assert FullWindows(b.states, t) == map[];
  }

  lemma FirstAccount(b: Bw, t: Timeb)
    requires b.states == map[] && b.maxBw == 100
    ensures OnlyAccount(Inserted(b, 0, 0, t), t)
  {
    NoAccounts(b, t);
    InsertedLedger(b, 0, 0, t);
    FirstAccountKeys(b, t);
  }

  lemma FirstAccountKeys(b: Bw, t: Timeb)
    requires b.states == map[] && b.maxBw == 100
    ensures Inserted(b, 0, 0, t).maxBw == 100
    ensures Inserted(b, 0, 0, t).states.Keys == {0} && Inserted(b, 0, 0, t).states[0].active
  {
  }

  lemma CountedIsEmpty(b: Bw, t: Timeb)
    requires OnlyAccount(b, t)
    ensures Counted(b.states[0], t).curBw == 0
  {
    OneWindow(b, 0, t);
    assert AccountOk(b.states[0], t);
    CountedIsTheWindow(b.states[0], t);
  }

  lemma OnlyWeakest(states: map<ConnId, BwState>)
    requires states.Keys == {0} && states[0].active && states[0].curBw == 0
    ensures LeastServed(states, 100) == 0 && Weakest(states, 0) == {0}
  {
    LeastServedIsExact(states, 100);
    assert 0 in Active(states);
  }

  /** The only connection gets a guess, whatever the rounding. */
  lemma OnlyOneGetsAGuess(b: Bw, t: Timeb, fpu: Fpu)
    requires Sound(fpu) && OnlyAccount(b, t)
    ensures var b' := Recalculated(b, t, fpu);
            b'.maxBw == 100 && b'.curBw == 0 && 0 in b'.states && b'.states[0].guess >= 1
  {
    CountedIsEmpty(b, t);
    OnlyWeakest(CountedAll(b.states, t));
    RecalcReportsTheExcess(b, t, fpu);
    LeastServedAdvance(b, t, fpu, 0);
  }

  /** One request waits for a socket that has no room yet. */
  ghost predicate Blocked(s: State)
  {
    && s.outgoings == map[0 := [0]] && 0 in s.conns && s.conns[0].registered
    && s.conns[0].cbs.state == CsConnected && !s.conns[0].cbs.connected && s.conns[0].sock == Sock(0, false, false)
    && 0 in s.reqs && s.reqs[0].conn == 0 && s.reqs[0].data == [7] && s.reqs[0].sent == 0 && s.reqs[0].phase == Pending
  }

  lemma AcceptedThenOne(s: State, s': State)
    requires 0 in s.conns && s.conns[0] == NewConn(JustAccepted(false), 3, true, Sock(0, false, false), FromListener, true, true)
    requires s.reqs == map[] && s.outgoings == map[]
    requires Requested(s, s', 0, 0, [7], false)
    ensures Blocked(s')
  {
    assert s'.outgoings == map[0 := [0]] by {
      assert [] + [0] == [0];
    }
  }

  lemma ReachBlocked() returns (s: State, run: seq<Action>)
    ensures Reached(s, START, run) && Blocked(s) && OnlyAccount(s.bws, TimeOf(s))
  {
    var s0, run0 := FirstConnection(100, 0);
    FirstAccount(NewBw(100, 0, 0), TimeOf(s0));
    s, run := OneRequest(s0, START, run0, 0, 0, [7], false);
    AcceptedThenOne(s0, s);
  }

  lemma BlockedAttempt(s: State, guess: uint32)
    requires Blocked(s) && Listed(s, 0, 0) && s.bws.maxBw > 0 && 0 in s.bws.states && guess > 0
    ensures var out := Attempt(s, 0, 0, Some(guess), CALM);
            !out.done && Blocked(out.s) && SwitchedOffIn(out.s.bws, 0)
  {
    AttemptState(s, 0, 0, Some(guess), CALM);
    DoSendBill(s, 0, Some(guess), CALM);
    DoSendDelivery(s, 0, Some(guess), CALM);
    DoSendOutcome(s, 0, Some(guess), CALM);
  }

  lemma BlockedWalk(s: State)
    requires Blocked(s) && Wf(s) && s.bws.maxBw > 0 && 0 in s.bws.states && s.bws.states[0].guess > 0
    ensures Blocked(SendAll(s, [0], true, CALM)) && SwitchedOffIn(SendAll(s, [0], true, CALM).bws, 0)
  {
    ListedPending(s, 0, 0);
    var out := Attempt(s, 0, 0, Some(s.bws.states[0].guess), CALM);
    BlockedAttempt(s, s.bws.states[0].guess);
    assert SendList(out.s, 0, 1, out.guess, CALM) == out.s;
    assert SendList(s, 0, 0, Some(s.bws.states[0].guess), CALM) == out.s;
    assert [0][1..] == [];
    assert SendAll(out.s, [], true, CALM) == out.s;
  }

  lemma BlockedTurn(s: State, fpu: Fpu)
    requires Blocked(s) && Wf(s) && OnlyAccount(s.bws, TimeOf(s)) && Sound(fpu)
    ensures Blocked(Idle(s, Tour([0], CALM, CALM), fpu))
    ensures SwitchedOffIn(Idle(s, Tour([0], CALM, CALM), fpu).bws, 0)
  {
    OnlyOneGetsAGuess(s.bws, TimeOf(s), fpu);
    IdleIsLimited(s, fpu);
    StillWf(s, s.(bws := Recalculated(s.bws, TimeOf(s), fpu)));
    BlockedWalk(s.(bws := Recalculated(s.bws, TimeOf(s), fpu)));
  }

  lemma IdleIsLimited(s: State, fpu: Fpu)
    requires s.bws.maxBw > 0 && Recalculated(s.bws, TimeOf(s), fpu).curBw <= s.bws.maxBw
    ensures Idle(s, Tour([0], CALM, CALM), fpu)
         == SendAll(s.(bws := Recalculated(s.bws, TimeOf(s), fpu)), [0], true, CALM)
  {
  }

  lemma StillWf(s: State, s': State)
    requires Wf(s) && s' == s.(bws := s'.bws)
    ensures Wf(s')
  {
    forall i | 0 <= i < |s'.queue|
      ensures Known(s', s'.queue[i])
    {
      assert Known(s, s.queue[i]);
    }
    forall r | r in s'.reqs
      ensures ReqKnown(s', r)
    {
      assert ReqKnown(s, r);
    }
    forall c | c in s'.outgoings
      ensures ListKnown(s', c, s'.outgoings[c])
    {
      assert ListKnown(s, c, s.outgoings[c]);
    }
  }

  const EVENT := NetEvent(0, false, true, false, Got, CALM)

  /** Room appears while there is no limit, and its report is overlooked. */
  lemma ReportIsOverlooked(s: State)
    requires Blocked(s) && SwitchedOffIn(s.bws, 0) && Wf(s) && !s.crashed
    ensures Forgets(RoomUnlimited(s), EVENT) && !EarlyData(RoomUnlimited(s), EVENT)
    ensures Enabled(RoomUnlimited(s), HandlesEvent(EVENT)) && Remembered(RoomUnlimited(s), 0)
  {
    ListedPending(s, 0, 0);
    assert Listed(RoomUnlimited(s), 0, 0);
    assert FirstRest(RoomUnlimited(s), 0, 0) == 1;
  }

  /** The limit is lifted, and the socket gets room for five bytes. */
  function RoomUnlimited(s: State): State
    requires 0 in s.conns
  {
    WithConn(s, 0, s.conns[0].(sock := s.conns[0].sock.Refilled(5))).(bws := s.bws.(maxBw := 0))
  }

  lemma RoomSteps(s: State, start: Start, run: seq<Action>) returns (run': seq<Action>)
    requires Reached(s, start, run) && !s.crashed && 0 in s.conns
    ensures Reached(RoomUnlimited(s), start, run') && Inv(RoomUnlimited(s))
  {
    var s1, run1 := Step(s, start, run, ClientSetsLimit(0));
    var s2, run2 := Step(s1, start, run1, RoomGrows(0, 5));
    assert s2 == RoomUnlimited(s);
    run' := run2;
  }

  lemma ReachRoomUnlimited(fpu: Fpu) returns (s: State, run: seq<Action>)
    requires Sound(fpu)
    ensures Reached(s, START, run) && Inv(s)
    ensures Enabled(s, HandlesEvent(EVENT)) && Forgets(s, EVENT) && !EarlyData(s, EVENT) && Remembered(s, 0)
  {
    var s0, run0 := ReachSwitchedOff(fpu);
    ReportIsOverlooked(s0);
    run := RoomSteps(s0, START, run0);
    s := RoomUnlimited(s0);
  }

  /**
   A limit of 100 is lifted and restored. The connection has room for four more bytes, nothing will
   report it, and the limiter keeps it switched off.
   */
  lemma LiftingTheLimitForgets(fpu: Fpu) returns (s: State, run: seq<Action>)
    requires Sound(fpu)
    ensures Reached(s, START, run) && s.bws.maxBw == 100
    ensures 0 in s.bws.states && !Remembered(s, 0)
  {
    var s0, run0 := ReachRoomUnlimited(fpu);
    var s1, run1 := EventIsOverlooked(s0, run0);
    s, run := Step(s1, START, run1, ClientSetsLimit(100));
  }

  lemma EventIsOverlooked(s: State, run: seq<Action>) returns (s': State, run': seq<Action>)
    requires Reached(s, START, run) && Inv(s)
    requires Enabled(s, HandlesEvent(EVENT)) && Forgets(s, EVENT) && !EarlyData(s, EVENT) && Remembered(s, 0)
    ensures Reached(s', START, run') && Inv(s') && 0 in s'.bws.states && !Remembered(s', 0)
  {
    ReachedTracked(s, START, run);
    assert Quiet(EVENT.w);
    EventRemembers(s, EVENT);
    s', run' := Step(s, START, run, HandlesEvent(EVENT));
  }

  lemma ReachSwitchedOff(fpu: Fpu) returns (s: State, run: seq<Action>)
    requires Sound(fpu)
    ensures Reached(s, START, run) && Blocked(s) && SwitchedOffIn(s.bws, 0)
    ensures Wf(s) && !s.crashed
  {
    var s0, run0 := ReachBlocked();
    ReachedInv(s0, START, run0);
    BlockedTurn(s0, fpu);
    TourIsEnabled(s0, fpu);
    s, run := Step(s0, START, run0, Idles(Tour([0], CALM, CALM), fpu));
  }

  lemma TourIsEnabled(s: State, fpu: Fpu)
    requires Blocked(s) && !s.crashed && Sound(fpu)
    ensures Enabled(s, Idles(Tour([0], CALM, CALM), fpu)) && Orderly(s, Idles(Tour([0], CALM, CALM), fpu))
  {
    assert Visits(s, [0]);
  }
}
